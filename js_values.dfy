/** JavaScript values as the middleware and the helpers see them, with the
    built-in coercions they rely on: truthiness, String.prototype.trim,
    the ToNumber conversion used by `*`, and parseInt. */
module JsValues {

  /** A JavaScript number. Finite values are exact reals: rounding and the
      two infinities are not modelled. */
  datatype Number = Finite(r: real) | NaN

  datatype Value =
    | Undefined
    | Null
    | Bool(b: bool)
    | Num(n: Number)
    | Str(s: string)
    | Arr(elems: seq<Value>)
    | Obj(props: map<string, Value>)

  /** ToBoolean: what `if (v)`, `!v` and `v || w` test. */
  predicate Truthy(v: Value)
    ensures Truthy(v) ==> !v.Undefined? && !v.Null?
    ensures v.Arr? || v.Obj? ==> Truthy(v)
  {
    match v
    case Undefined => false
    case Null => false
    case Bool(b) => b
    case Num(n) => n.Finite? && n.r != 0.0
    case Str(s) => s != []
    case Arr(_) => true
    case Obj(_) => true
  }

  /** `a || b` */
  function Or(a: Value, b: Value): Value {
    if Truthy(a) then a else b
  }

  /** `v[key]` on a value that is neither null nor undefined (on those two it throws). */
  function Get(v: Value, key: string): Value
    requires !v.Undefined? && !v.Null?
  {
    if v.Obj? && key in v.props then v.props[key] else Undefined
  }

  function Add(a: Number, b: Number): Number {
    if a.NaN? || b.NaN? then NaN else Finite(a.r + b.r)
  }

  function Mul(a: Number, b: Number): Number {
    if a.NaN? || b.NaN? then NaN else Finite(a.r * b.r)
  }

  // ---------------------------------------------------------------------
  // Whitespace and trim
  // ---------------------------------------------------------------------

  /** The WhiteSpace and LineTerminator code points of ECMA-262 (sections
      12.2 and 12.3): what trim() strips and what parseInt skips. */
  predicate IsWhitespace(c: char) {
    var n := c as int;
    n == 0x09 || n == 0x0A || n == 0x0B || n == 0x0C || n == 0x0D || n == 0x20
    || n == 0xA0 || n == 0x1680 || (0x2000 <= n <= 0x200A) || n == 0x2028
    || n == 0x2029 || n == 0x202F || n == 0x205F || n == 0x3000 || n == 0xFEFF
  }

  /** Every character is whitespace (the empty string included). */
  predicate Blank(s: string) {
    forall i :: 0 <= i < |s| ==> IsWhitespace(s[i])
  }

  /** String.prototype.length: the number of UTF-16 code units, where a code
      point outside the Basic Multilingual Plane takes two. */
  function Utf16Length(s: string): (n: nat)
    ensures |s| <= n <= 2 * |s|
    ensures (forall i :: 0 <= i < |s| ==> s[i] as int < 0x10000) ==> n == |s|
  {
    if s == [] then 0
    else (if s[0] as int < 0x10000 then 1 else 2) + Utf16Length(s[1..])
  }

  /** String.prototype.trimStart: the suffix left after dropping leading whitespace. */
  function TrimStart(s: string): (r: string)
    ensures |r| <= |s| && r == s[|s| - |r|..]
    ensures Blank(s[..|s| - |r|])
    ensures r != [] ==> !IsWhitespace(r[0])
    decreases |s|
  {
    if s != [] && IsWhitespace(s[0]) then
      var r := TrimStart(s[1..]);
      assert s[..|s| - |r|] == [s[0]] + s[1..][..|s| - 1 - |r|];
      r
    else s
  }

  /** String.prototype.trimEnd: the prefix left after dropping trailing whitespace. */
  function TrimEnd(s: string): (r: string)
    ensures |r| <= |s| && r == s[..|r|]
    ensures Blank(s[|r|..])
    ensures r != [] ==> !IsWhitespace(r[|r| - 1])
    decreases |s|
  {
    if s != [] && IsWhitespace(s[|s| - 1]) then
      var r := TrimEnd(s[..|s| - 1]);
      assert s[|r|..] == s[..|s| - 1][|r|..] + [s[|s| - 1]];
      r
    else s
  }

  /** String.prototype.trim */
  function Trim(s: string): (r: string)
    ensures |r| <= |s|
    ensures r != [] ==> !IsWhitespace(r[0]) && !IsWhitespace(r[|r| - 1])
  {
    TrimEnd(TrimStart(s))
  }

  /** trim() yields the empty string exactly on whitespace-only strings. */
  lemma TrimEmptyIffBlank(s: string)
    ensures Trim(s) == [] <==> Blank(s)
  {
    var t := TrimStart(s);
    if t != [] {
      assert t[0] == s[|s| - |t|];
    }
    if Trim(s) == [] {
      assert t[|TrimEnd(t)|..] == t;
      assert s[..|s| - |t|] == s;
    }
  }

  lemma {:induction false} TrimStartBlankPrefix(w: string, s: string)
    requires Blank(w)
    ensures TrimStart(w + s) == TrimStart(s)
    decreases |w|
  {
    if w != [] {
      assert (w + s)[1..] == w[1..] + s;
      TrimStartBlankPrefix(w[1..], s);
    } else {
      assert w + s == s;
    }
  }

  lemma {:induction false} TrimEndBlankSuffix(s: string, w: string)
    requires Blank(w)
    ensures TrimEnd(s + w) == TrimEnd(s)
    decreases |w|
  {
    if w != [] {
      assert (s + w)[..|s + w| - 1] == s + w[..|w| - 1];
      TrimEndBlankSuffix(s, w[..|w| - 1]);
    } else {
      assert s + w == s;
    }
  }

  /** Leading whitespace is stripped from the front only: a tail after a
      non-blank string survives trimStart untouched. */
  lemma {:induction false} TrimStartAppend(s: string, w: string)
    requires !Blank(s)
    ensures TrimStart(s + w) == TrimStart(s) + w
    decreases |s|
  {
    if IsWhitespace(s[0]) {
      assert (s + w)[1..] == s[1..] + w;
      assert !Blank(s[1..]) by {
        var i :| 0 <= i < |s| && !IsWhitespace(s[i]);
        assert s[1..][i - 1] == s[i];
      }
      TrimStartAppend(s[1..], w);
    } else {
      assert (s + w)[0] == s[0];
    }
  }

  /** Whitespace around a string never changes what trim() yields. */
  lemma TrimPadded(w1: string, s: string, w2: string)
    requires Blank(w1) && Blank(w2)
    ensures Trim(w1 + s + w2) == Trim(s)
  {
    assert w1 + s + w2 == w1 + (s + w2);
    TrimStartBlankPrefix(w1, s + w2);
    if Blank(s) {
      TrimEmptyIffBlank(s);
      TrimStartBlankPrefix(s, w2);
      TrimStartBlankPrefix(w2, []);
      assert w2 + [] == w2;
    } else {
      TrimStartAppend(s, w2);
      TrimEndBlankSuffix(TrimStart(s), w2);
    }
  }

  // ---------------------------------------------------------------------
  // Digits, ToNumber and parseInt
  // ---------------------------------------------------------------------

  /** The value of a digit character in radixes up to 36 (36 for a non-digit). */
  function DigitValue(c: char): (d: nat)
    ensures d <= 36
  {
    if '0' <= c <= '9' then (c - '0') as nat
    else if 'a' <= c <= 'z' then (c - 'a') as nat + 10
    else if 'A' <= c <= 'Z' then (c - 'A') as nat + 10
    else 36
  }

  predicate IsRadixDigit(c: char, radix: nat) {
    DigitValue(c) < radix
  }

  predicate AllRadixDigits(s: string, radix: nat) {
    forall i :: 0 <= i < |s| ==> IsRadixDigit(s[i], radix)
  }

  /** The value of a string of digits, most significant first. */
  function DigitsValue(ds: string, radix: nat): nat
    requires AllRadixDigits(ds, radix)
  {
    if ds == [] then 0
    else DigitsValue(ds[..|ds| - 1], radix) * radix + DigitValue(ds[|ds| - 1])
  }

  /** The longest prefix made of digits of the given radix. */
  function LeadingDigits(s: string, radix: nat): (z: string)
    ensures |z| <= |s| && z == s[..|z|]
    ensures AllRadixDigits(z, radix)
    ensures |z| < |s| ==> !IsRadixDigit(s[|z|], radix)
  {
    if s != [] && IsRadixDigit(s[0], radix) then [s[0]] + LeadingDigits(s[1..], radix) else []
  }

  /** StringToNumber for the literal forms this model covers: after trimming,
      the empty string is 0 and an optionally signed run of decimal digits is
      its value; every other string reads as NaN. */
  function StringToNumber(s: string): Number {
    var t := Trim(s);
    var digits := if t != [] && (t[0] == '-' || t[0] == '+') then t[1..] else t;
    if t == [] then Finite(0.0)
    else if digits == [] || !AllRadixDigits(digits, 10) then NaN
    else if t[0] == '-' then Finite(-(DigitsValue(digits, 10) as real))
    else Finite(DigitsValue(digits, 10) as real)
  }

  /** ToNumber, the coercion `*` applies to both operands. An array goes
      through its string form: empty is 0, one element converts as that
      element's string form, more elements contain a comma and are NaN. A
      plain object reads "[object Object]", which is NaN. */
  function ToNumber(v: Value): (r: Number)
    ensures !Truthy(v) && !v.Undefined? && v != Num(NaN) ==> r == Finite(0.0)
    ensures v.Arr? && |v.elems| == 1 && v.elems[0].Str? ==> r == StringToNumber(v.elems[0].s)
    decreases v
  {
    match v
    case Undefined => NaN
    case Null => Finite(0.0)
    case Bool(b) => if b then Finite(1.0) else Finite(0.0)
    case Num(n) => n
    case Str(s) => StringToNumber(s)
    case Arr(elems) =>
      if |elems| == 0 then Finite(0.0)
      else if |elems| > 1 then NaN
      else (match elems[0]
            case Undefined => Finite(0.0)
            case Null => Finite(0.0)
            case Bool(_) => NaN
            case Obj(_) => NaN
            case _ => ToNumber(elems[0]))
    case Obj(_) => NaN
  }

  /** The string parseInt reads after leading whitespace and one optional sign. */
  function ParseIntBody(s: string): string {
    var t := TrimStart(s);
    if t != [] && (t[0] == '-' || t[0] == '+') then t[1..] else t
  }

  /** The unsigned part of parseInt: a "0x"/"0X" prefix selects radix 16,
      otherwise radix 10, then the longest run of digits is read; no digit
      at all is NaN. */
  function ParseMagnitude(u: string): (r: Number)
    ensures r.Finite? ==> r.r >= 0.0 && r.r.Floor as real == r.r
  {
    var hex := |u| >= 2 && u[0] == '0' && (u[1] == 'x' || u[1] == 'X');
    var radix := if hex then 16 else 10;
    var z := LeadingDigits(if hex then u[2..] else u, radix);
    if z == [] then NaN else Finite(DigitsValue(z, radix) as real)
  }

  /** parseInt(s) with no radix argument (ECMA-262 section 19.2.5): skip
      leading whitespace, take one sign, then read the magnitude. */
  function ParseInt(s: string): (r: Number)
    ensures r.Finite? ==> r.r.Floor as real == r.r
    ensures r.Finite? && r.r < 0.0 ==> TrimStart(s) != [] && TrimStart(s)[0] == '-'
  {
    var t := TrimStart(s);
    var magnitude := ParseMagnitude(ParseIntBody(s));
    if magnitude.Finite? && t != [] && t[0] == '-' then
      var k := magnitude.r.Floor;
      assert ((-k) as real).Floor == -k;
      Finite((-k) as real)
    else magnitude
  }

  /** parseInt is NaN exactly when no digit follows the whitespace and the
      sign: a hexadecimal digit after a 0x prefix, a decimal digit otherwise. */
  lemma ParseIntNaNIff(s: string)
    ensures ParseInt(s).NaN? <==>
      var u := ParseIntBody(s);
      if |u| >= 2 && u[0] == '0' && (u[1] == 'x' || u[1] == 'X')
      then |u| == 2 || !IsRadixDigit(u[2], 16)
      else u == [] || !IsRadixDigit(u[0], 10)
  {
  }

  /** The decimal representation of a natural number, as String(n) writes it. */
  function DecimalString(n: nat): (s: string)
    ensures s != [] && AllRadixDigits(s, 10)
  {
    if n < 10 then ['0' + n as char]
    else DecimalString(n / 10) + ['0' + (n % 10) as char]
  }

  lemma {:induction false} DecimalStringValue(n: nat)
    ensures DigitsValue(DecimalString(n), 10) == n
  {
    if n >= 10 {
      var s := DecimalString(n);
      assert s[..|s| - 1] == DecimalString(n / 10);
      DecimalStringValue(n / 10);
    }
  }

  lemma {:induction false} LeadingDigitsOfDigits(s: string, radix: nat)
    requires AllRadixDigits(s, radix)
    ensures LeadingDigits(s, radix) == s
  {
    if s != [] {
      LeadingDigitsOfDigits(s[1..], radix);
    }
  }

  /** A run of decimal digits has no 0x prefix, so parseInt reads all of it in radix 10. */
  lemma ParseMagnitudeOfDigits(s: string)
    requires s != [] && AllRadixDigits(s, 10)
    ensures ParseMagnitude(s) == Finite(DigitsValue(s, 10) as real)
  {
    assert !(|s| >= 2 && s[0] == '0' && (s[1] == 'x' || s[1] == 'X')) by {
      if |s| >= 2 { assert IsRadixDigit(s[1], 10); }
    }
    LeadingDigitsOfDigits(s, 10);
  }

  /** parseInt of a string made only of decimal digits is their value. */
  lemma ParseIntOfDigits(s: string)
    requires s != [] && AllRadixDigits(s, 10)
    ensures ParseInt(s) == Finite(DigitsValue(s, 10) as real)
  {
    assert '0' <= s[0] <= '9' by { assert IsRadixDigit(s[0], 10); }
    assert !IsWhitespace(s[0]) && s[0] != '-' && s[0] != '+';
    assert TrimStart(s) == s;
    assert ParseIntBody(s) == s;
    ParseMagnitudeOfDigits(s);
  }

  /** parseInt reads back the decimal string of every natural number. */
  lemma ParseIntDecimalString(n: nat)
    ensures ParseInt(DecimalString(n)) == Finite(n as real)
  {
    ParseIntOfDigits(DecimalString(n));
    DecimalStringValue(n);
  }
}
