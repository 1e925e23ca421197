/**
 * The numeric conversions the extractor relies on: `parseInt(v)` with no radix (section 19.2.5 of
 * ECMA-262), `parseFloat(v)` (section 19.2.4), both applied to `String(v)`, the `|| 0` default the
 * extractor puts after them, and the decimal text of a non-negative integer (`Date.now() + '-'`).
 * JavaScript numbers are modelled as exact integers and reals.
 */
module JsNumbers {
  import opened Wrappers
  import opened JsValues

  predicate IsDigit(c: char) { '0' <= c <= '9' }

  predicate AllDigits(s: string) { forall i :: 0 <= i < |s| ==> IsDigit(s[i]) }

  function DigitValue(c: char): (d: nat)
    requires IsDigit(c)
    ensures d < 10
  {
    c as int - '0' as int
  }

  predicate IsHexDigit(c: char) { IsDigit(c) || 'a' <= c <= 'f' || 'A' <= c <= 'F' }

  predicate AllHexDigits(s: string) { forall i :: 0 <= i < |s| ==> IsHexDigit(s[i]) }

  function HexDigitValue(c: char): (d: nat)
    requires IsHexDigit(c)
    ensures d < 16
  {
    if IsDigit(c) then DigitValue(c)
    else if 'a' <= c <= 'f' then c as int - 'a' as int + 10
    else c as int - 'A' as int + 10
  }

  /** The length of the longest prefix of `s` made of decimal digits. */
  function DigitRun(s: string): (n: nat)
    ensures n <= |s| && AllDigits(s[..n])
    ensures n == |s| || !IsDigit(s[n])
    decreases |s|
  {
    if s != [] && IsDigit(s[0]) then
      var n := 1 + DigitRun(s[1..]);
      assert s[..n] == [s[0]] + s[1..][..n - 1];
      n
    else 0
  }

  /** The length of the longest prefix of `s` made of hexadecimal digits. */
  function HexRun(s: string): (n: nat)
    ensures n <= |s| && AllHexDigits(s[..n])
    ensures n == |s| || !IsHexDigit(s[n])
    decreases |s|
  {
    if s != [] && IsHexDigit(s[0]) then
      var n := 1 + HexRun(s[1..]);
      assert s[..n] == [s[0]] + s[1..][..n - 1];
      n
    else 0
  }

  /** The number a string of decimal digits denotes. */
  function DecimalValue(ds: string): nat
    requires AllDigits(ds)
    decreases |ds|
  {
    if ds == [] then 0 else DecimalValue(ds[..|ds| - 1]) * 10 + DigitValue(ds[|ds| - 1])
  }

  /** The number a string of hexadecimal digits denotes. */
  function HexValue(hs: string): nat
    requires AllHexDigits(hs)
    decreases |hs|
  {
    if hs == [] then 0 else HexValue(hs[..|hs| - 1]) * 16 + HexDigitValue(hs[|hs| - 1])
  }

  /** The part of `t` after an optional leading sign. */
  function Unsigned(t: string): (u: string)
    ensures t != [] && (t[0] == '-' || t[0] == '+') ==> u == t[1..]
    ensures !(t != [] && (t[0] == '-' || t[0] == '+')) ==> u == t
  {
    if t != [] && (t[0] == '-' || t[0] == '+') then t[1..] else t
  }

  /** The integer a leading run of digits of `u` denotes: after a "0x"/"0X" prefix the digits are
      hexadecimal, otherwise decimal; `None` when there is no digit. */
  function UnsignedIntPrefix(u: string): (r: Option<nat>)
    ensures r.Some? ==> u != [] && IsDigit(u[0])
  {
    if |u| >= 2 && u[0] == '0' && (u[1] == 'x' || u[1] == 'X') then
      var h := HexRun(u[2..]);
      if h == 0 then None else Some(HexValue(u[2..][..h]))
    else
      var d := DigitRun(u);
      if d == 0 then None else Some(DecimalValue(u[..d]))
  }

  /** `parseInt(s)` with the radix left out: skip leading blanks, take an optional sign, then read the
      digits as UnsignedIntPrefix does. No digit at all gives NaN, here `None`. */
  function ParseInt(s: string): (r: Option<int>)
    ensures var u := Unsigned(TrimStart(s)); r.Some? ==> u != [] && IsDigit(u[0])
    ensures var t := TrimStart(s); r.Some? ==> (if t != [] && t[0] == '-' then r.value <= 0 else r.value >= 0)
  {
    var t := TrimStart(s);
    match UnsignedIntPrefix(Unsigned(t))
    case None => None
    case Some(n) => Some(if t != [] && t[0] == '-' then -(n as int) else n)
  }

  /** `m` times 10 to the power `e`, by repeated multiplication or division by ten. */
  function Scale(m: real, e: int): real
    decreases if e < 0 then -e else e
  {
    if e == 0 then m else if e > 0 then Scale(m, e - 1) * 10.0 else Scale(m, e + 1) / 10.0
  }

  /** Scaling keeps the sign of a non-negative number. */
  lemma {:induction false} ScaleNonNegative(m: real, e: int)
    requires m >= 0.0
    ensures Scale(m, e) >= 0.0
    decreases if e < 0 then -e else e
  {
    if e > 0 {
      ScaleNonNegative(m, e - 1);
    } else if e < 0 {
      ScaleNonNegative(m, e + 1);
    }
  }

  /** The value of a leading ExponentPart ("e", optional sign, digits) of `s`; 0 when `s` has none. */
  function Exponent(s: string): int
  {
    if |s| >= 2 && (s[0] == 'e' || s[0] == 'E') then
      var digits := Unsigned(s[1..]);
      var d := DigitRun(digits);
      if d == 0 then 0
      else if s[1] == '-' then -(DecimalValue(digits[..d]) as int)
      else DecimalValue(digits[..d])
    else 0
  }

  /** The value of a leading StrUnsignedDecimalLiteral of `u`: digits [ "." digits ] [ exponent ] or
      "." digits [ exponent ]; `None` when the mantissa has no digit. */
  function UnsignedFloatPrefix(u: string): (r: Option<real>)
    ensures r.Some? ==> u != [] && (IsDigit(u[0]) || u[0] == '.')
  {
    var ip := DigitRun(u);
    var hasDot := ip < |u| && u[ip] == '.';
    var fraction := if hasDot then u[ip + 1..] else [];
    var fp := DigitRun(fraction);
    if ip == 0 && fp == 0 then None
    else Some(LiteralValue(u[..ip], fraction[..fp], Exponent(if hasDot then fraction[fp..] else u[ip..])))
  }

  /** The mathematical value of a decimal literal with integer digits `ds`, fraction digits `fs` and
      exponent `e`. */
  function LiteralValue(ds: string, fs: string, e: int): (x: real)
    requires AllDigits(ds) && AllDigits(fs)
    ensures x >= 0.0
  {
    ScaleNonNegative(DecimalValue(ds) as real + Fraction(fs), e);
    Scale(DecimalValue(ds) as real + Fraction(fs), e)
  }

  /** The value of the digits `fs` written after a decimal point. */
  function Fraction(fs: string): (x: real)
    requires AllDigits(fs)
    ensures x >= 0.0
  {
    ScaleNonNegative(DecimalValue(fs) as real, -|fs|);
    Scale(DecimalValue(fs) as real, -|fs|)
  }

  /** `parseFloat(s)`, read exactly: skip leading blanks, take an optional sign, then read the longest
      decimal literal as UnsignedFloatPrefix does. No mantissa digit gives NaN, here `None`. */
  function ParseFloat(s: string): (r: Option<real>)
    ensures var u := Unsigned(TrimStart(s)); r.Some? ==> u != [] && (IsDigit(u[0]) || u[0] == '.')
    ensures var t := TrimStart(s); r.Some? ==> (if t != [] && t[0] == '-' then r.value <= 0.0 else r.value >= 0.0)
  {
    var t := TrimStart(s);
    match UnsignedFloatPrefix(Unsigned(t))
    case None => None
    case Some(x) => Some(if t != [] && t[0] == '-' then -x else x)
  }

  /** `parseInt(v) || 0`: NaN (and zero) become 0. */
  function IntOr0(v: JsVal): (n: int)
    ensures ParseInt(ToJsString(v)).None? ==> n == 0
    ensures ParseInt(ToJsString(v)).Some? ==> n == ParseInt(ToJsString(v)).value
    ensures n != 0 ==> ParseInt(ToJsString(v)) == Some(n)
  {
    match ParseInt(ToJsString(v))
    case None => 0
    case Some(n) => n
  }

  /** `parseFloat(v) || 0`: NaN (and zero) become 0. */
  function FloatOr0(v: JsVal): (x: real)
    ensures ParseFloat(ToJsString(v)).None? ==> x == 0.0
    ensures ParseFloat(ToJsString(v)).Some? ==> x == ParseFloat(ToJsString(v)).value
    ensures x != 0.0 ==> ParseFloat(ToJsString(v)) == Some(x)
  {
    match ParseFloat(ToJsString(v))
    case None => 0.0
    case Some(x) => x
  }

  /** `parseInt(v?.k1?.k2 ... ?.kn) || 0`: the number read at the end of an optional-chaining path. */
  function IntAt(v: JsVal, path: seq<string>): int
    decreases |path|
  {
    if path == [] then IntOr0(v) else IntAt(Prop(v, path[0]), path[1..])
  }

  /** `parseFloat(v?.k1?.k2 ... ?.kn) || 0` */
  function FloatAt(v: JsVal, path: seq<string>): real
    decreases |path|
  {
    if path == [] then FloatOr0(v) else FloatAt(Prop(v, path[0]), path[1..])
  }

  /** Reading a number at a path is reading the value at the path, then converting it. */
  lemma {:induction false} NumberAtIsNumberOfGet(v: JsVal, path: seq<string>)
    ensures IntAt(v, path) == IntOr0(Get(v, path))
    ensures FloatAt(v, path) == FloatOr0(Get(v, path))
    decreases |path|
  {
    if path != [] {
      NumberAtIsNumberOfGet(Prop(v, path[0]), path[1..]);
    }
  }

  function DigitChar(d: nat): (c: char)
    requires d < 10
    ensures IsDigit(c) && DigitValue(c) == d
  {
    ('0' as int + d) as char
  }

  /** The decimal text of `n`, as `String(n)` prints a non-negative integer: digits only, no leading zero,
      and denoting `n`. */
  function NatToDecimal(n: nat): (s: string)
    ensures s != [] && AllDigits(s)
    ensures DecimalValue(s) == n
    ensures s[0] == '0' ==> s == "0"
    decreases n
  {
    if n < 10 then [DigitChar(n)]
    else
      var s := NatToDecimal(n / 10) + [DigitChar(n % 10)];
      assert s[..|s| - 1] == NatToDecimal(n / 10);
      s
  }

  /** A run of digits ends where the first non-digit after it starts. */
  lemma {:induction false} DigitRunOfDigits(ds: string, rest: string)
    requires AllDigits(ds)
    requires rest == [] || !IsDigit(rest[0])
    ensures DigitRun(ds + rest) == |ds|
    decreases |ds|
  {
    if ds == [] {
      assert ds + rest == rest;
    } else {
      assert (ds + rest)[0] == ds[0];
      assert (ds + rest)[1..] == ds[1..] + rest;
      DigitRunOfDigits(ds[1..], rest);
    }
  }

  /** Text that does not start with a blank is left alone by TrimStart. */
  lemma KeepsNonBlank(s: string)
    requires s != [] && !IsJsSpace(s[0])
    ensures TrimStart(s) == s
  {
  }

  /** Text that starts with neither a blank nor a sign is left alone by both. */
  lemma NoBlankNoSign(s: string)
    requires s != [] && IsDigit(s[0])
    ensures TrimStart(s) == s && Unsigned(s) == s
  {
  }

  /** The unsigned reader takes the leading digits, whatever follows them. */
  lemma UnsignedIntOfDigits(ds: string, rest: string)
    requires ds != [] && AllDigits(ds)
    requires rest == [] || !IsDigit(rest[0])
    requires ds == "0" ==> rest == [] || (rest[0] != 'x' && rest[0] != 'X')
    ensures UnsignedIntPrefix(ds + rest) == Some(DecimalValue(ds))
  {
    var u := ds + rest;
    if |u| >= 2 && u[0] == '0' {
      if |ds| >= 2 {
        assert u[1] == ds[1];
      } else {
        assert ds == "0" by { assert ds == [ds[0]]; }
        assert u[1] == rest[0];
      }
    }
    DigitRunOfDigits(ds, rest);
    assert u[..|ds|] == ds;
  }

  /** `parseInt` reads the leading digits and ignores what follows them: "720abc" gives 720. */
  lemma ParseIntOfDigits(ds: string, rest: string)
    requires ds != [] && AllDigits(ds)
    requires rest == [] || !IsDigit(rest[0])
    requires ds == "0" ==> rest == [] || (rest[0] != 'x' && rest[0] != 'X')
    ensures ParseInt(ds + rest) == Some(DecimalValue(ds))
  {
    NoBlankNoSign(ds + rest);
    UnsignedIntOfDigits(ds, rest);
  }

  /** With a leading minus sign `parseInt` gives the negated value. */
  lemma ParseIntOfNegativeDigits(ds: string, rest: string)
    requires ds != [] && AllDigits(ds)
    requires rest == [] || !IsDigit(rest[0])
    requires ds == "0" ==> rest == [] || (rest[0] != 'x' && rest[0] != 'X')
    ensures ParseInt("-" + ds + rest) == Some(-(DecimalValue(ds) as int))
  {
    var s := "-" + ds + rest;
    assert s[0] == '-';
    assert TrimStart(s) == s by {
      assert s[0] == '-';
      KeepsNonBlank(s);
    }
    assert Unsigned(s) == ds + rest by {
      assert s[0] == '-' && s[1..] == ds + rest;
    }
    assert UnsignedIntPrefix(ds + rest) == Some(DecimalValue(ds)) by {
      UnsignedIntOfDigits(ds, rest);
    }
  }

  /** When the first character after the blanks and the sign is not a digit, `parseInt` is NaN: "N/A",
      "undefined" and "[object Object]" all give `None`. */
  lemma ParseIntNoDigit(s: string)
    requires var u := Unsigned(TrimStart(s)); u == [] || !IsDigit(u[0])
    ensures ParseInt(s) == None
  {
  }

  /** `parseInt(v) || 0` of a non-negative integer's decimal text gives that integer back. */
  lemma IntOr0OfDecimal(n: nat)
    ensures IntOr0(Str(NatToDecimal(n))) == n
  {
    ParseIntOfDigits(NatToDecimal(n), "");
    assert NatToDecimal(n) + "" == NatToDecimal(n);
  }

  /** An absent value is NaN to `parseInt` and to `parseFloat`, so both defaults give 0. */
  lemma AbsentIsZero()
    ensures IntOr0(Undef) == 0 && FloatOr0(Undef) == 0.0
  {
    var u := "undefined";
    assert ToJsString(Undef) == u;
    assert TrimStart(u) == u && Unsigned(u) == u;
    assert DigitRun(u) == 0;
    assert u[..0] == [];
  }

  /** The unsigned decimal reader on "digits" gives their integer value. */
  lemma UnsignedFloatOfDigits(ds: string)
    requires ds != [] && AllDigits(ds)
    ensures UnsignedFloatPrefix(ds) == Some(DecimalValue(ds) as real)
  {
    DigitRunOfDigits(ds, "");
    assert ds + "" == ds;
    assert ds[..|ds|] == ds && ds[|ds|..] == [];
    assert DigitRun([]) == 0;
    assert Exponent([]) == 0;
    assert UnsignedFloatPrefix(ds) == Some(LiteralValue(ds, [], 0));
    assert Fraction([]) == 0.0;
  }

  /** `parseFloat` of a digit string is its integer value, as `parseInt` reads it. */
  lemma ParseFloatOfDigits(ds: string)
    requires ds != [] && AllDigits(ds)
    ensures ParseFloat(ds) == Some(DecimalValue(ds) as real)
  {
    NoBlankNoSign(ds);
    UnsignedFloatOfDigits(ds);
  }

  /** The unsigned decimal reader on "digits.digits" gives the integer part plus the fraction. */
  lemma UnsignedFloatOfDecimal(ds: string, fs: string)
    requires ds != [] && AllDigits(ds) && AllDigits(fs)
    ensures UnsignedFloatPrefix(ds + "." + fs) == Some(LiteralValue(ds, fs, 0))
  {
    var u := ds + "." + fs;
    assert u == ds + ("." + fs);
    DigitRunOfDigits(ds, "." + fs);
    var ip := DigitRun(u);
    assert ip == |ds| && ip < |u| && u[ip] == '.';
    var fraction := u[ip + 1..];
    assert fraction == fs;
    DigitRunOfDigits(fs, "");
    assert fs + "" == fs;
    var fp := DigitRun(fraction);
    assert fp == |fs|;
    assert fraction[..fp] == fs && fraction[fp..] == [];
    assert u[..ip] == ds;
    assert Exponent(fraction[fp..]) == 0;
  }

  /** `parseFloat` reads "digits.digits" as a literal with no exponent: the integer part plus the
      fraction, "12.50" giving 12 + 50/100. */
  lemma ParseFloatOfDecimal(ds: string, fs: string)
    requires ds != [] && AllDigits(ds) && AllDigits(fs)
    ensures ParseFloat(ds + "." + fs) == Some(LiteralValue(ds, fs, 0))
  {
    var s := ds + "." + fs;
    assert s[0] == ds[0];
    NoBlankNoSign(s);
    UnsignedFloatOfDecimal(ds, fs);
  }

  /** `parseInt` and `parseFloat` agree on the decimal text of a non-negative integer. */
  lemma IntAndFloatAgreeOnDecimal(n: nat)
    ensures FloatOr0(Str(NatToDecimal(n))) == IntOr0(Str(NatToDecimal(n))) as real
  {
    IntOr0OfDecimal(n);
    ParseFloatOfDigits(NatToDecimal(n));
  }

  /** An exponent scales the mantissa by a power of ten: "1.5e2" reads as 150. */
  lemma ParseFloatOfExponent()
    ensures ParseFloat("1.5e2") == Some(150.0)
  {
    var u := "1.5e2";
    assert TrimStart(u) == u && Unsigned(u) == u;
    assert DigitRun(u) == 1 by {
      assert u[1..] == ".5e2";
    }
    var fraction := u[2..];
    assert fraction == "5e2";
    assert DigitRun(fraction) == 1 by {
      assert fraction[1..] == "e2";
    }
    assert fraction[1..] == "e2";
    assert Exponent("e2") == 2 by {
      assert Unsigned("2") == "2";
      assert DigitRun("2") == 1 by { assert "2"[1..] == []; }
      assert "2"[..1] == "2";
    }
    assert u[..1] == "1" && fraction[..1] == "5";
    assert Fraction("5") == 0.5 by {
      assert DecimalValue("5") == 5 by { assert "5"[..0] == []; }
      assert Scale(5.0, -1) == Scale(5.0, 0) / 10.0;
    }
    assert LiteralValue("1", "5", 2) == Scale(1.5, 2);
  }
}
