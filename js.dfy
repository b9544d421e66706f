/** The parts of JavaScript's runtime behaviour that the receipt pipeline relies on:
    loosely typed values, truthiness, property reads, the String and Number
    conversions, parseFloat, and the handful of string operations (trim, split,
    replace, padStart, case mapping) the source code calls. */
module Js {

  datatype Option<T> = None | Some(value: T)

  /** A call that either returns a value or throws an error with a message. */
  datatype Completion<T> = Returns(value: T) | Throws(message: string)

  /** A JavaScript number: NaN or a finite value (kept exact). */
  datatype Number = NaN | Finite(val: real)

  /** A loosely typed value as it arrives from JSON or from untyped callers. */
  datatype Value =
    | Undefined
    | Null
    | Bool(b: bool)
    | Num(num: Number)
    | Str(s: string)
    | Arr(items: seq<Value>)
    | Obj(fields: map<string, Value>)

  function N(r: real): Value { Num(Finite(r)) }

  /** `!!v` */
  predicate Truthy(v: Value) {
    match v
    case Undefined => false
    case Null => false
    case Bool(b) => b
    case Num(n) => n.Finite? && n.val != 0.0
    case Str(s) => s != ""
    case Arr(_) => true
    case Obj(_) => true
  }

  /** `typeof v === 'object' && v !== null` (arrays are objects too). */
  predicate IsObject(v: Value) { v.Arr? || v.Obj? }

  /** `v.key` / `v?.key` on a value that is not null or undefined; named keys of
      arrays, strings and primitives read as undefined. */
  function Get(v: Value, key: string): (r: Value)
    ensures !v.Obj? ==> r == Undefined
  {
    if v.Obj? && key in v.fields then v.fields[key] else Undefined
  }

  /** The message V8 gives when a property of null or undefined is read. */
  function ReadError(v: Value, key: string): string
    requires v.Undefined? || v.Null?
  {
    "Cannot read properties of " + (if v.Null? then "null" else "undefined") + " (reading '" + key + "')"
  }

  /** `a || b` */
  function Or(a: Value, b: Value): (r: Value)
    ensures Truthy(a) ==> r == a
    ensures !Truthy(a) ==> r == b
  {
    if Truthy(a) then a else b
  }

  /** `v?.length` */
  function LengthOf(v: Value): Value {
    match v
    case Arr(items) => N(|items| as real)
    case Str(s) => N(|s| as real)
    case Obj(_) => Get(v, "length")
    case _ => Undefined
  }

  /** `{ ...v }`: own enumerable properties (array and string indices become keys). */
  function Spread(v: Value): map<string, Value> {
    match v
    case Obj(m) => m
    case Arr(items) => map i | 0 <= i < |items| :: IntToDecimal(i) := items[i]
    case Str(s) => map i | 0 <= i < |s| :: IntToDecimal(i) := Str([s[i]])
    case _ => map[]
  }

  // ---------------------------------------------------------------------------
  // Characters

  predicate IsDigit(c: char) { '0' <= c <= '9' }

  predicate AllDigits(s: string) { forall i :: 0 <= i < |s| ==> IsDigit(s[i]) }

  /** The characters matched by `\s` and removed by `trim()`. */
  predicate IsSpace(c: char) {
    c == '\t' || c == '\n' || c == '\U{B}' || c == '\U{C}' || c == '\r' || c == ' '
    || c == '\U{A0}' || c == '\U{1680}' || ('\U{2000}' <= c <= '\U{200A}')
    || c == '\U{2028}' || c == '\U{2029}' || c == '\U{202F}' || c == '\U{205F}'
    || c == '\U{3000}' || c == '\U{FEFF}'
  }

  predicate NotSpace(c: char) { !IsSpace(c) }

  predicate NoSpace(s: string) { forall i :: 0 <= i < |s| ==> !IsSpace(s[i]) }

  function DigitVal(c: char): nat
    requires IsDigit(c)
  {
    (c as int) - ('0' as int)
  }

  function DigitChar(d: nat): (c: char)
    requires d < 10
    ensures IsDigit(c) && DigitVal(c) == d
  {
    ('0' as int + d) as char
  }

  // ---------------------------------------------------------------------------
  // Strings

  /** `s.trimStart()` */
  function TrimStart(s: string): (r: string)
    ensures |r| <= |s|
    ensures r == [] || !IsSpace(r[0])
  {
    if |s| > 0 && IsSpace(s[0]) then TrimStart(s[1..]) else s
  }

  /** What `trimStart` removes is white space, and what it keeps is a suffix. */
  lemma {:induction false} TrimStartSuffix(s: string)
    ensures TrimStart(s) == s[|s| - |TrimStart(s)|..]
    ensures forall i :: 0 <= i < |s| - |TrimStart(s)| ==> IsSpace(s[i])
  {
    if |s| > 0 && IsSpace(s[0]) {
      TrimStartSuffix(s[1..]);
      assert forall i :: 1 <= i < |s| ==> s[i] == s[1..][i - 1];
    }
  }

  /** `s.trimEnd()` */
  function TrimEnd(s: string): (r: string)
    ensures |r| <= |s|
    ensures r == [] || !IsSpace(r[|r| - 1])
  {
    if |s| > 0 && IsSpace(s[|s| - 1]) then TrimEnd(s[..|s| - 1]) else s
  }

  /** What `trimEnd` removes is white space, and what it keeps is a prefix. */
  lemma {:induction false} TrimEndPrefix(s: string)
    ensures TrimEnd(s) == s[..|TrimEnd(s)|]
    ensures forall i :: |TrimEnd(s)| <= i < |s| ==> IsSpace(s[i])
  {
    if |s| > 0 && IsSpace(s[|s| - 1]) {
      TrimEndPrefix(s[..|s| - 1]);
    }
  }

  /** `s.trim()` */
  function Trim(s: string): (r: string)
    ensures IsTrimmed(r)
    ensures IsTrimmed(s) ==> r == s
  {
    TrimEndPrefix(TrimStart(s));
    TrimEnd(TrimStart(s))
  }

  /** Trimming only removes characters: one absent before is absent after. */
  lemma TrimKeepsOut(s: string, c: char)
    requires c !in s
    ensures c !in Trim(s)
  {
    var u := TrimStart(s);
    TrimStartSuffix(s);
    SliceKeepsOut(s, c, |s| - |u|, |s|);
    TrimEndPrefix(u);
    SliceKeepsOut(u, c, 0, |TrimEnd(u)|);
  }

  lemma SliceKeepsOut(s: string, c: char, lo: nat, hi: nat)
    requires c !in s && lo <= hi <= |s|
    ensures c !in s[lo..hi]
  {
  }

  predicate IsTrimmed(s: string) {
    s == [] || (!IsSpace(s[0]) && !IsSpace(s[|s| - 1]))
  }

  /** Digits, a dot and digits have nothing to trim. */
  lemma DecimalTrimmed(d: string, f: string)
    requires d != [] && f != [] && AllDigits(d) && AllDigits(f)
    ensures Trim(d + "." + f) == d + "." + f
  {
    var r := d + "." + f;
    assert r[0] == d[0];
    assert r[|r| - 1] == f[|f| - 1];
    assert !IsSpace(d[0]) && !IsSpace(f[|f| - 1]);
  }

  /** One leading space is trimmed away. */
  lemma TrimLeadingSpace(x: string)
    requires x != [] && IsTrimmed(x)
    ensures Trim(" " + x) == x
  {
    assert (" " + x)[1..] == x;
    assert TrimStart(" " + x) == TrimStart(x);
  }

  /** The characters of `s` that satisfy `keep`, in order: `s.replace(/[^…]/g, '')`. */
  function Keep(s: string, keep: char -> bool): (r: string)
    ensures |r| <= |s|
    ensures forall i :: 0 <= i < |r| ==> keep(r[i])
  {
    if s == [] then []
    else if keep(s[0]) then [s[0]] + Keep(s[1..], keep)
    else Keep(s[1..], keep)
  }

  lemma {:induction false} KeepAll(s: string, keep: char -> bool)
    requires forall i :: 0 <= i < |s| ==> keep(s[i])
    ensures Keep(s, keep) == s
  {
    if s != [] {
      KeepAll(s[1..], keep);
    }
  }

  lemma {:induction false} KeepConcat(a: string, b: string, keep: char -> bool)
    ensures Keep(a + b, keep) == Keep(a, keep) + Keep(b, keep)
  {
    if a != [] {
      assert (a + b)[0] == a[0];
      assert (a + b)[1..] == a[1..] + b;
      KeepConcat(a[1..], b, keep);
    } else {
      assert a + b == b;
    }
  }

  /** `s.replace(pat, rep)` with a string pattern: the first occurrence only. */
  function ReplaceFirst(s: string, pat: string, rep: string): (r: string)
    decreases |s|
  {
    if |s| < |pat| then s
    else if s[..|pat|] == pat then rep + s[|pat|..]
    else [s[0]] + ReplaceFirst(s[1..], pat, rep)
  }

  /** `s.includes(pat)` */
  predicate Occurs(s: string, pat: string)
    decreases |s|
  {
    |s| >= |pat| && (s[..|pat|] == pat || (|s| > 0 && Occurs(s[1..], pat)))
  }

  /** A replace whose pattern does not occur leaves the string as it was. */
  lemma {:induction false} ReplaceFirstAbsent(s: string, pat: string, rep: string)
    requires pat != [] && !Occurs(s, pat)
    ensures ReplaceFirst(s, pat, rep) == s
  {
    if |s| >= |pat| {
      ReplaceFirstAbsent(s[1..], pat, rep);
    }
  }

  /** A single-character pattern occurs exactly when the character does. */
  lemma {:induction false} CharOccurs(s: string, c: char)
    ensures Occurs(s, [c]) <==> c in s
  {
    if s != [] {
      CharOccurs(s[1..], c);
      assert s == [s[0]] + s[1..];
      assert s[..1] == [s[0]];
    }
  }

  /** `s.split(sep)` for a one-character separator. */
  function Split(s: string, sep: char): (r: seq<string>)
    ensures |r| >= 1
    ensures forall k :: 0 <= k < |r| ==> sep !in r[k]
  {
    if s == [] then [""]
    else
      var rest := Split(s[1..], sep);
      if s[0] == sep then [""] + rest else [[s[0]] + rest[0]] + rest[1..]
  }

  /** `parts.join(sep)` */
  function Join(parts: seq<string>, sep: string): string {
    if parts == [] then ""
    else if |parts| == 1 then parts[0]
    else parts[0] + sep + Join(parts[1..], sep)
  }

  /** Splitting and joining again gives back the original string. */
  lemma {:induction false} JoinSplit(s: string, sep: char)
    ensures Join(Split(s, sep), [sep]) == s
  {
    if s != [] {
      var rest := Split(s[1..], sep);
      JoinSplit(s[1..], sep);
      if s[0] != sep {
        if |rest| == 1 {
          assert Join(rest, [sep]) == rest[0];
        } else {
          assert Join(rest, [sep]) == rest[0] + [sep] + Join(rest[1..], [sep]);
        }
      }
    }
  }

  /** Splitting a separator-free piece followed by the separator peels off that piece. */
  lemma {:induction false} SplitCons(a: string, b: string, sep: char)
    requires sep !in a
    ensures Split(a + [sep] + b, sep) == [a] + Split(b, sep)
  {
    if a == [] {
      assert a + [sep] + b == [sep] + b;
      assert ([sep] + b)[1..] == b;
    } else {
      assert (a + [sep] + b)[1..] == a[1..] + [sep] + b;
      SplitCons(a[1..], b, sep);
      assert [a[0]] + a[1..] == a;
    }
  }

  lemma {:induction false} SplitNone(a: string, sep: char)
    requires sep !in a
    ensures Split(a, sep) == [a]
  {
    if a != [] {
      SplitNone(a[1..], sep);
      assert [a[0]] + a[1..] == a;
    }
  }

  /** A character absent from the string is absent from every piece of its split. */
  lemma {:induction false} SplitAvoids(s: string, sep: char, c: char)
    requires c !in s
    ensures forall k :: 0 <= k < |Split(s, sep)| ==> c !in Split(s, sep)[k]
  {
    if s != [] {
      SplitAvoids(s[1..], sep, c);
    }
  }

  /** `s.padStart(2, '0')` */
  function Pad2(s: string): (r: string)
    ensures |r| >= 2
    ensures |s| >= 2 ==> r == s
    ensures |r| >= |s| && r[|r| - |s|..] == s
    ensures forall i :: 0 <= i < |r| ==> r[i] == '0' || r[i] in s
  {
    if |s| >= 2 then s else if |s| == 1 then "0" + s else "00"
  }

  /** Lexicographic `a < b` on strings (code unit order). */
  predicate LexLess(a: string, b: string) {
    if b == [] then false
    else if a == [] then true
    else if a[0] != b[0] then a[0] < b[0]
    else LexLess(a[1..], b[1..])
  }

  /** `String.prototype.toLowerCase` on Basic Latin and Latin-1. */
  function LowerChar(c: char): char {
    if 'A' <= c <= 'Z' || ('\U{C0}' <= c <= '\U{DE}' && c != '\U{D7}') then (c as int + 32) as char
    else c
  }

  function ToLower(s: string): (r: string)
    ensures |r| == |s|
    ensures forall i :: 0 <= i < |s| ==> r[i] == LowerChar(s[i])
  {
    if s == [] then [] else [LowerChar(s[0])] + ToLower(s[1..])
  }

  /** `String.prototype.toUpperCase` on Basic Latin and Latin-1 ('ß' becomes "SS"). */
  function UpperChars(c: char): string {
    if 'a' <= c <= 'z' || ('\U{E0}' <= c <= '\U{FE}' && c != '\U{F7}') then [(c as int - 32) as char]
    else if c == '\U{DF}' then "SS"
    else if c == '\U{FF}' then "\U{178}"
    else if c == '\U{B5}' then "\U{39C}"
    else [c]
  }

  function ToUpper(s: string): string {
    if s == [] then [] else UpperChars(s[0]) + ToUpper(s[1..])
  }

  predicate NoAsciiLower(s: string) { forall i :: 0 <= i < |s| ==> !('a' <= s[i] <= 'z') }

  /** Upper-case letters and digits are left as they are. */
  lemma {:induction false} ToUpperFixed(s: string)
    requires forall i :: 0 <= i < |s| ==> IsDigit(s[i]) || 'A' <= s[i] <= 'Z'
    ensures ToUpper(s) == s
  {
    if s != [] {
      ToUpperFixed(s[1..]);
    }
  }

  lemma {:induction false} ToUpperNoAsciiLower(s: string)
    ensures NoAsciiLower(ToUpper(s))
  {
    if s != [] {
      ToUpperNoAsciiLower(s[1..]);
      var u := UpperChars(s[0]);
      assert NoAsciiLower(u);
      assert ToUpper(s) == u + ToUpper(s[1..]);
    }
  }

  lemma {:induction false} ToUpperKeepsTrimmed(s: string)
    requires IsTrimmed(s)
    ensures IsTrimmed(ToUpper(s))
  {
    if s != [] {
      ToUpperEnds(s);
    }
  }

  lemma {:induction false} ToUpperEnds(s: string)
    requires s != []
    ensures ToUpper(s) != []
    ensures !IsSpace(s[0]) ==> !IsSpace(ToUpper(s)[0])
    ensures !IsSpace(s[|s| - 1]) ==> !IsSpace(ToUpper(s)[|ToUpper(s)| - 1])
  {
    var u := UpperChars(s[0]);
    assert ToUpper(s) == u + ToUpper(s[1..]);
    if |s| > 1 {
      ToUpperEnds(s[1..]);
      assert s[1..][|s[1..]| - 1] == s[|s| - 1];
    }
  }

  // ---------------------------------------------------------------------------
  // Numbers: decimal digits

  function Pow10(n: nat): (r: nat)
    ensures r >= 1
  {
    if n == 0 then 1 else 10 * Pow10(n - 1)
  }

  /** The value of a run of decimal digits. */
  function DigitsValue(s: string): nat
    requires AllDigits(s)
  {
    if s == [] then 0 else DigitsValue(s[..|s| - 1]) * 10 + DigitVal(s[|s| - 1])
  }

  /** The value of the digits after a decimal point. */
  function FracValue(s: string): real
    requires AllDigits(s)
  {
    if s == [] then 0.0 else (DigitVal(s[0]) as real + FracValue(s[1..])) / 10.0
  }

  lemma {:induction false} DigitsValueConcat(a: string, b: string)
    requires AllDigits(a) && AllDigits(b)
    ensures AllDigits(a + b)
    ensures DigitsValue(a + b) == DigitsValue(a) * Pow10(|b|) + DigitsValue(b)
  {
    if b != [] {
      var b' := b[..|b| - 1];
      var d := DigitVal(b[|b| - 1]);
      assert (a + b)[..|a + b| - 1] == a + b';
      assert (a + b)[|a + b| - 1] == b[|b| - 1];
      DigitsValueConcat(a, b');
      calc {
        DigitsValue(a + b);
        DigitsValue(a + b') * 10 + d;
        (DigitsValue(a) * Pow10(|b'|) + DigitsValue(b')) * 10 + d;
        { ShiftDigit(DigitsValue(a), Pow10(|b'|), DigitsValue(b'), d); }
        DigitsValue(a) * (Pow10(|b'|) * 10) + (DigitsValue(b') * 10 + d);
      }
    } else {
      assert a + b == a;
    }
  }

  lemma ShiftDigit(v: int, p: int, w: int, d: int)
    ensures (v * p + w) * 10 + d == v * (p * 10) + (w * 10 + d)
  {
  }

  /** `String(n)` for a natural number. */
  function NatToDecimal(n: nat): (r: string)
    ensures |r| >= 1 && AllDigits(r)
    ensures DigitsValue(r) == n
    decreases n
  {
    if n < 10 then [DigitChar(n)]
    else
      var r := NatToDecimal(n / 10) + [DigitChar(n % 10)];
      assert r[..|r| - 1] == NatToDecimal(n / 10);
      r
  }

  function IntToDecimal(i: int): string {
    if i < 0 then "-" + NatToDecimal(-i) else NatToDecimal(i)
  }

  /** The longest run of digits at the start of `s`. */
  function DigitPrefix(s: string): (r: string)
    ensures |r| <= |s| && r == s[..|r|] && AllDigits(r)
    ensures |r| == |s| || !IsDigit(s[|r|])
  {
    if s != [] && IsDigit(s[0]) then [s[0]] + DigitPrefix(s[1..]) else []
  }

  lemma {:induction false} DigitPrefixOf(a: string, b: string)
    requires AllDigits(a) && (b == [] || !IsDigit(b[0]))
    ensures DigitPrefix(a + b) == a
  {
    if a != [] {
      assert (a + b)[1..] == a[1..] + b;
      DigitPrefixOf(a[1..], b);
    } else {
      assert a + b == b;
    }
  }

  /** A decimal literal at the start of `s` (no sign): digits, an optional '.'
      and fraction digits, an optional exponent. Gives its value and length. */
  function DecimalPrefix(s: string): (r: Option<(real, nat)>)
    ensures r.Some? ==> 0 < r.value.1 <= |s|
  {
    var ip := DigitPrefix(s);
    var rest := s[|ip|..];
    var hasDot := |rest| > 0 && rest[0] == '.';
    var fp := if hasDot then DigitPrefix(rest[1..]) else "";
    if |ip| + |fp| == 0 then None
    else
      var used := |ip| + (if hasDot then 1 + |fp| else 0);
      var mag := DigitsValue(ip) as real + FracValue(fp);
      match ExponentPrefix(s[used..])
      case None => Some((mag, used))
      case Some((e, elen)) => Some((Scale(mag, e), used + elen))
  }

  /** `e`/`E`, an optional sign and at least one digit. */
  function ExponentPrefix(s: string): (r: Option<(int, nat)>)
    ensures r.Some? ==> 0 < r.value.1 <= |s|
  {
    if |s| < 2 || (s[0] != 'e' && s[0] != 'E') then None
    else
      var signed := s[1] == '+' || s[1] == '-';
      var ds := DigitPrefix(if signed then s[2..] else s[1..]);
      if ds == [] then None
      else
        var e: int := DigitsValue(ds);
        Some((if s[1] == '-' then -e else e, 1 + (if signed then 1 else 0) + |ds|))
  }

  /** `mag` times ten to the power `e`, one factor of ten at a time. */
  function Scale(mag: real, e: int): real
    decreases if e < 0 then -e else e
  {
    if e == 0 then mag
    else if e > 0 then Scale(mag, e - 1) * 10.0
    else Scale(mag, e + 1) / 10.0
  }

  /** An optional sign in front of a decimal literal. */
  function SignedDecimalPrefix(s: string): (r: Option<(real, nat)>)
    ensures r.Some? ==> 0 < r.value.1 <= |s|
  {
    if |s| > 0 && (s[0] == '-' || s[0] == '+') then
      match DecimalPrefix(s[1..])
      case None => None
      case Some((m, len)) => Some((if s[0] == '-' then -m else m, len + 1))
    else DecimalPrefix(s)
  }

  /** `parseFloat(s)`: the longest decimal literal after leading white space. */
  function ParseFloat(s: string): Number {
    match SignedDecimalPrefix(TrimStart(s))
    case None => NaN
    case Some((v, _)) => Finite(v)
  }

  /** Digits in base 2, 8 or 16 after a `0b`, `0o` or `0x` prefix. */
  function RadixDigit(c: char): int {
    if '0' <= c <= '9' then c as int - '0' as int
    else if 'a' <= c <= 'f' then c as int - 'a' as int + 10
    else if 'A' <= c <= 'F' then c as int - 'A' as int + 10
    else 16
  }

  function RadixValue(s: string, base: nat): Option<nat>
    requires base >= 2
  {
    if s == [] then Some(0)
    else if RadixDigit(s[|s| - 1]) >= base then None
    else match RadixValue(s[..|s| - 1], base)
      case None => None
      case Some(v) => Some(v * base + RadixDigit(s[|s| - 1]))
  }

  /** `Number(s)` for a string: the whole trimmed string must be a numeric literal;
      the empty string is 0. */
  function StringToNumber(s: string): Number {
    var t := Trim(s);
    if t == [] then Finite(0.0)
    else if |t| > 2 && t[0] == '0' && t[1] in "xXoObB" then
      var base := if t[1] in "xX" then 16 else if t[1] in "oO" then 8 else 2;
      match RadixValue(t[2..], base)
      case None => NaN
      case Some(v) => Finite(v as real)
    else
      match SignedDecimalPrefix(t)
      case Some((v, len)) => if len == |t| then Finite(v) else NaN
      case None => NaN
  }

  /** `String(n)` for a number. Fractions print their decimal digits (at most
      twenty of them). */
  function NumberToString(n: Number): string {
    match n
    case NaN => "NaN"
    case Finite(r) => if r < 0.0 then "-" + MagnitudeToString(-r) else MagnitudeToString(r)
  }

  function MagnitudeToString(r: real): string
    requires r >= 0.0
  {
    var ip := r.Floor;
    var frac := r - ip as real;
    NatToDecimal(ip) + (if frac == 0.0 then "" else "." + FractionDigits(frac, 20))
  }

  function FractionDigits(f: real, fuel: nat): string
    requires 0.0 <= f < 1.0
    decreases fuel
  {
    if f == 0.0 || fuel == 0 then ""
    else
      var d := (f * 10.0).Floor;
      [DigitChar(d)] + FractionDigits(f * 10.0 - d as real, fuel - 1)
  }

  /** `String(v)` and template-literal interpolation. */
  function ToStr(v: Value): string {
    match v
    case Undefined => "undefined"
    case Null => "null"
    case Bool(b) => if b then "true" else "false"
    case Num(n) => NumberToString(n)
    case Str(s) => s
    case Arr(items) => JoinElements(items)
    case Obj(_) => "[object Object]"
  }

  /** A string prints as itself. */
  lemma StrToStr(s: string)
    ensures ToStr(Str(s)) == s
  {
  }

  /** `items.join(',')`: null and undefined elements print as nothing. */
  function JoinElements(items: seq<Value>): string
    decreases items
  {
    if items == [] then ""
    else
      var first := if items[0].Undefined? || items[0].Null? then "" else ToStr(items[0]);
      if |items| == 1 then first else first + "," + JoinElements(items[1..])
  }

  /** `Number(v)` */
  function ToNumber(v: Value): Number {
    match v
    case Undefined => NaN
    case Null => Finite(0.0)
    case Bool(b) => Finite(if b then 1.0 else 0.0)
    case Num(n) => n
    case Str(s) => StringToNumber(s)
    case Arr(_) => StringToNumber(ToStr(v))
    case Obj(_) => NaN
  }

  /** `Number(v) || 0` */
  function NumberOrZero(v: Value): (r: real)
    ensures ToNumber(v).Finite? ==> r == ToNumber(v).val
    ensures ToNumber(v).NaN? ==> r == 0.0
  {
    match ToNumber(v)
    case NaN => 0.0
    case Finite(r) => r
  }

  /** `{ ...data, key: Number(data.key) || 0, … }` for the keys of `keys`. */
  function CoerceNumbers(data: Value, fields: map<string, Value>, keys: seq<string>): map<string, Value>
    decreases |keys|
  {
    if keys == [] then fields
    else CoerceNumbers(data, fields[keys[0] := N(NumberOrZero(Get(data, keys[0])))], keys[1..])
  }

  /** Each key of `keys` holds its number, or 0; every other key is as it was. */
  lemma {:induction false} CoerceNumbersField(data: Value, fields: map<string, Value>, keys: seq<string>, k: string)
    ensures var r := CoerceNumbers(data, fields, keys);
      && (k in keys ==> k in r && r[k] == N(NumberOrZero(Get(data, k))))
      && (k !in keys ==> (k in r <==> k in fields) && (k in r ==> r[k] == fields[k]))
    decreases |keys|
  {
    if keys != [] {
      assert keys == [keys[0]] + keys[1..];
      CoerceNumbersField(data, fields[keys[0] := N(NumberOrZero(Get(data, keys[0])))], keys[1..], k);
    }
  }

  /** Abstract relational comparison `a < b`: two strings compare by code units,
      anything else numerically, and NaN compares false. */
  predicate LooseLess(a: Value, b: Value) {
    var pa := ToPrimitive(a);
    var pb := ToPrimitive(b);
    if pa.Str? && pb.Str? then LexLess(pa.s, pb.s)
    else
      var na := ToNumber(pa);
      var nb := ToNumber(pb);
      na.Finite? && nb.Finite? && na.val < nb.val
  }

  function ToPrimitive(v: Value): Value {
    if v.Arr? || v.Obj? then Str(ToStr(v)) else v
  }

  /** `v > 0` */
  predicate Positive(v: Value) {
    ToNumber(ToPrimitive(v)).Finite? && ToNumber(ToPrimitive(v)).val > 0.0
  }

  lemma PositiveNumber(r: real)
    ensures Positive(N(r)) <==> r > 0.0
  {
  }

  /** The value as it is stored after a JSON round trip: NaN becomes null and
      undefined properties disappear. */
  function Jsonify(v: Value): Value
    decreases v
  {
    match v
    case Num(NaN) => Null
    case Arr(items) => Arr(seq(|items|, i requires 0 <= i < |items| => if items[i].Undefined? then Null else Jsonify(items[i])))
    case Obj(m) => Obj(map k | k in m && !m[k].Undefined? :: Jsonify(m[k]))
    case _ => v
  }
  /** A replace skips a prefix that cannot start the pattern. */
  lemma {:induction false} ReplaceFirstSkip(x: string, y: string, pat: string, rep: string)
    requires pat != [] && pat[0] !in x
    ensures ReplaceFirst(x + y, pat, rep) == x + ReplaceFirst(y, pat, rep)
  {
    if x == [] {
      assert x + y == y;
    } else {
      assert (x + y)[0] == x[0];
      assert (x + y)[1..] == x[1..] + y;
      ReplaceFirstSkip(x[1..], y, pat, rep);
    }
  }

  lemma ReplaceFirstHead(z: string, pat: string, rep: string)
    ensures ReplaceFirst(pat + z, pat, rep) == rep + z
  {
    assert (pat + z)[..|pat|] == pat;
    assert (pat + z)[|pat|..] == z;
  }

  lemma {:induction false} DecimalPrefixPlain(d: string)
    requires d != [] && AllDigits(d)
    ensures DecimalPrefix(d) == Some((DigitsValue(d) as real, |d|))
  {
    DigitPrefixOf(d, []);
    assert d + [] == d;
    assert d[|d|..] == [];
  }

  lemma {:induction false} DecimalPrefixFraction(d: string, f: string)
    requires d != [] && AllDigits(d) && AllDigits(f)
    ensures DecimalPrefix(d + "." + f) == Some((DigitsValue(d) as real + FracValue(f), |d| + 1 + |f|))
  {
    var s := d + ("." + f);
    assert s == d + "." + f;
    DigitPrefixOf(d, "." + f);
    var ip := DigitPrefix(s);
    assert ip == d;
    var rest := s[|ip|..];
    assert rest == "." + f;
    assert rest[1..] == f;
    FullDigitPrefix(f);
    var fp := DigitPrefix(rest[1..]);
    assert fp == f;
    var used := |ip| + 1 + |fp|;
    assert s[used..] == [];
    assert ExponentPrefix(s[used..]).None?;
    var r := DecimalPrefix(s);
    assert r.Some? && r.value.0 == DigitsValue(d) as real + FracValue(f) && r.value.1 == |s|;
  }

  lemma FullDigitPrefix(f: string)
    requires AllDigits(f)
    ensures DigitPrefix(f) == f
  {
    DigitPrefixOf(f, []);
    assert f + [] == f;
  }

  /** `parseFloat` of a string that starts with a digit is the value of its
      longest decimal prefix. */
  lemma ParseFloatDigitStart(s: string)
    requires s != [] && IsDigit(s[0]) && DecimalPrefix(s).Some?
    ensures ParseFloat(s) == Finite(DecimalPrefix(s).value.0)
  {
    assert !IsSpace(s[0]);
    assert TrimStart(s) == s;
    assert SignedDecimalPrefix(s) == DecimalPrefix(s);
  }

  /** `parseFloat` reads a plain decimal literal exactly. */
  lemma {:induction false} ParseFloatDecimal(d: string, f: string)
    requires d != [] && AllDigits(d) && AllDigits(f)
    ensures ParseFloat(d) == Finite(DigitsValue(d) as real)
    ensures ParseFloat(d + "." + f) == Finite(DigitsValue(d) as real + FracValue(f))
  {
    DecimalPrefixPlain(d);
    ParseFloatDigitStart(d);
    DecimalPrefixFraction(d, f);
    var s := d + "." + f;
    assert s[0] == d[0];
    ParseFloatDigitStart(s);
  }
  /** `isNaN(parseFloat(s)) ? 0 : parseFloat(s)` */
  function ParseFloatOrZero(s: string): (r: Number)
    ensures r.Finite?
    ensures ParseFloat(s).Finite? ==> r == ParseFloat(s)
  {
    match ParseFloat(s)
    case NaN => Finite(0.0)
    case Finite(x) => Finite(x)
  }

  /** The characters `[\d.-]` that the amount cleaners keep. */
  predicate IsNumberChar(c: char) { IsDigit(c) || c == '.' || c == '-' }

  predicate NoDigit(s: string) { forall i :: 0 <= i < |s| ==> !IsDigit(s[i]) }

  lemma {:induction false} KeepNoDigit(s: string, keep: char -> bool)
    requires NoDigit(s)
    ensures NoDigit(Keep(s, keep))
  {
    if s != [] {
      KeepNoDigit(s[1..], keep);
    }
  }

  lemma {:induction false} ReplaceFirstNoDigit(s: string, pat: string, rep: string)
    requires NoDigit(s) && NoDigit(rep)
    ensures NoDigit(ReplaceFirst(s, pat, rep))
    decreases |s|
  {
    if |s| >= |pat| && s[..|pat|] != pat {
      ReplaceFirstNoDigit(s[1..], pat, rep);
    }
  }

  /** Without a digit there is no number to read. */
  lemma ParseFloatNoDigit(s: string)
    requires NoDigit(s)
    ensures ParseFloat(s) == NaN
  {
    var t := TrimStart(s);
    TrimStartSuffix(s);
    assert NoDigit(t) by {
      assert forall i :: 0 <= i < |t| ==> t[i] == s[|s| - |t| + i];
    }
    if |t| > 0 && (t[0] == '-' || t[0] == '+') {
      assert NoDigit(t[1..]) by {
        assert forall i :: 0 <= i < |t| - 1 ==> t[1..][i] == t[i + 1];
      }
      DecimalPrefixNoDigit(t[1..]);
    } else {
      DecimalPrefixNoDigit(t);
    }
  }

  /** Without a digit there is no decimal literal. */
  lemma DecimalPrefixNoDigit(u: string)
    requires NoDigit(u)
    ensures DecimalPrefix(u) == None
  {
    assert DigitPrefix(u) == [];
    if |u| > 0 && u[0] == '.' {
      assert DigitPrefix(u[1..]) == [] by {
        assert |u| == 1 || u[1..][0] == u[1];
      }
    }
  }

  /** An occurrence of a pattern contains the pattern's first character. */
  lemma {:induction false} OccursPrefix(s: string, pat: string)
    requires pat != [] && Occurs(s, pat)
    ensures pat[0] in s
    decreases |s|
  {
    if s[..|pat|] == pat {
      assert s[0] == pat[0];
    } else {
      OccursPrefix(s[1..], pat);
      assert pat[0] in s[1..];
    }
  }
}
