/** `parseInt(string)` with no radix argument, after ECMA-262 section 19.2.5:
    skip leading whitespace, take an optional sign, switch to radix 16 on a
    `0x`/`0X` prefix, then read the longest run of digits; with no digits the
    result is NaN, written here as `None`. */
module JsNumbers {
  import opened Wrappers
  import opened Text

  /** The value of `c` as a digit in radix 36 (`0`-`9`, then `a`-`z` or
      `A`-`Z`), or 36 when `c` is not a digit in any radix. */
  function DigitValue(c: char): (v: nat)
    ensures v <= 36
    ensures IsDecimalDigit(c) ==> v == c as int - '0' as int
  {
    if '0' <= c <= '9' then c as int - '0' as int
    else if 'a' <= c <= 'z' then c as int - 'a' as int + 10
    else if 'A' <= c <= 'Z' then c as int - 'A' as int + 10
    else 36
  }

  predicate IsRadixDigit(c: char, radix: nat) {
    DigitValue(c) < radix
  }

  /** Length of the longest prefix of `s` made of radix-`radix` digits. */
  function DigitRun(s: string, radix: nat): (n: nat)
    ensures n <= |s|
    ensures forall i :: 0 <= i < n ==> IsRadixDigit(s[i], radix)
    ensures n < |s| ==> !IsRadixDigit(s[n], radix)
  {
    if s != [] && IsRadixDigit(s[0], radix) then 1 + DigitRun(s[1..], radix) else 0
  }

  /** The mathematical value of a string of radix-`radix` digits, most
      significant digit first. */
  function DigitsValue(s: string, radix: nat): nat
    requires forall i :: 0 <= i < |s| ==> IsRadixDigit(s[i], radix)
    decreases |s|
  {
    if s == [] then 0
    else
      var high: nat := DigitsValue(s[..|s| - 1], radix);
      Scale(high, radix) + DigitValue(s[|s| - 1])
  }

  function Scale(x: nat, radix: nat): nat {
    x * radix
  }

  predicate HasHexPrefix(s: string) {
    |s| >= 2 && s[0] == '0' && (s[1] == 'x' || s[1] == 'X')
  }

  /** `parseInt(s)`; `None` is NaN. A negative zero is the integer 0. */
  function ParseInt(s: string): Option<int>
  {
    ParseSigned(TrimStart(s))
  }

  /** An optional sign, then the magnitude. */
  function ParseSigned(t: string): Option<int>
  {
    if t != [] && t[0] == '-' then
      match ParseMagnitude(t[1..])
      case None => None
      case Some(v) => Some(0 - v)
    else if t != [] && t[0] == '+' then
      match ParseMagnitude(t[1..])
      case None => None
      case Some(v) => Some(v as int)
    else
      match ParseMagnitude(t)
      case None => None
      case Some(v) => Some(v as int)
  }

  /** A `0x`/`0X` prefix selects radix 16, otherwise radix 10; then the
      longest digit run, NaN when it is empty. */
  function ParseMagnitude(u: string): Option<nat>
  {
    if HasHexPrefix(u) then ParseDigits(u[2..], 16) else ParseDigits(u, 10)
  }

  function ParseDigits(d: string, radix: nat): Option<nat>
  {
    var n := DigitRun(d, radix);
    if n == 0 then None else Some(DigitsValue(d[..n], radix))
  }

  /** The decimal digits of `n` read back as `n`. */
  lemma {:induction false} DecimalValue(n: nat)
    ensures DigitsValue(DecimalString(n), 10) == n
  {
    var r := DecimalString(n);
    if n >= 10 {
      DecimalValue(n / 10);
      assert r[..|r| - 1] == DecimalString(n / 10);
    }
  }

  /** A digit run stops at the first character that is not a digit. */
  lemma {:induction false} DigitRunAppend(d: string, t: string, radix: nat)
    requires forall i :: 0 <= i < |d| ==> IsRadixDigit(d[i], radix)
    requires t == [] || !IsRadixDigit(t[0], radix)
    ensures DigitRun(d + t, radix) == |d|
    decreases |d|
  {
    if d == [] {
      assert d + t == t;
    } else {
      assert (d + t)[1..] == d[1..] + t;
      DigitRunAppend(d[1..], t, radix);
    }
  }

  /** A string that does not start with whitespace is not changed by
      `trimStart`. */
  lemma TrimStartKeeps(s: string)
    requires s == [] || !IsSpace(s[0])
    ensures TrimStart(s) == s
  {
  }

  /** A string that starts with a digit is read without sign or skipping. */
  lemma ParseIntFromDigit(s: string)
    requires s != [] && IsDecimalDigit(s[0])
    ensures ParseInt(s) == ParseSigned(s)
    ensures ParseSigned(s) == if ParseMagnitude(s).Some? then Some(ParseMagnitude(s).value as int) else None
  {
    TrimStartKeeps(s);
  }

  /** The magnitude of a decimal rendering, whatever follows it, as long as
      the next character is not a digit and does not turn a leading `0` into
      a hexadecimal prefix. */
  lemma MagnitudeOfDecimal(n: nat, t: string)
    requires t == [] || !IsDecimalDigit(t[0])
    requires n == 0 ==> t == [] || (t[0] != 'x' && t[0] != 'X')
    ensures ParseMagnitude(DecimalString(n) + t) == Some(n)
  {
    var d := DecimalString(n);
    var s := d + t;
    assert s[0] == d[0];
    assert !HasHexPrefix(s) by {
      if |d| == 1 && d[0] == '0' {
        assert |s| < 2 || s[1] == t[0];
      } else {
        assert s[0] != '0';
      }
    }
    DigitRunAppend(d, t, 10);
    assert s[..|d|] == d;
    DecimalValue(n);
  }

  /** `parseInt` reads the decimal rendering of `n` back as `n`, whatever
      follows it, as long as the next character is not a digit and does not
      turn a leading `0` into a hexadecimal prefix. */
  lemma ParseIntDecimalPrefix(n: nat, t: string)
    requires t == [] || !IsDecimalDigit(t[0])
    requires n == 0 ==> t == [] || (t[0] != 'x' && t[0] != 'X')
    ensures ParseInt(DecimalString(n) + t) == Some(n)
  {
    var s := DecimalString(n) + t;
    assert s[0] == DecimalString(n)[0];
    ParseIntFromDigit(s);
    MagnitudeOfDecimal(n, t);
  }

  /** `parseInt` reads back the decimal rendering of any non-negative integer. */
  lemma ParseIntDecimal(n: nat)
    ensures ParseInt(DecimalString(n)) == Some(n)
  {
    ParseIntDecimalPrefix(n, "");
    assert DecimalString(n) + "" == DecimalString(n);
  }

  lemma ParseSignedMinus(u: string)
    ensures ParseSigned("-" + u) == if ParseMagnitude(u).Some? then Some(0 - ParseMagnitude(u).value) else None
  {
    assert ("-" + u)[0] == '-' && ("-" + u)[1..] == u;
  }

  /** A leading minus sign negates the value read. */
  lemma ParseIntNegative(n: nat)
    ensures ParseInt("-" + DecimalString(n)) == Some(0 - n)
  {
    var d := DecimalString(n);
    MagnitudeOfDecimal(n, "");
    assert d + "" == d;
    assert ("-" + d)[0] == '-';
    TrimStartKeeps("-" + d);
    ParseSignedMinus(d);
  }

  /** Leading whitespace is skipped. */
  lemma ParseIntSkipsSpace(ws: string, s: string)
    requires AllSpace(ws)
    ensures ParseInt(ws + s) == ParseInt(s)
  {
    TrimStartSkipsSpace(ws, s);
  }

  /** Without a decimal digit there is no magnitude: a hexadecimal prefix
      needs its `0`, and without one the radix is 10. */
  lemma MagnitudeNoDigits(u: string)
    requires forall i :: 0 <= i < |u| ==> !IsDecimalDigit(u[i])
    ensures ParseMagnitude(u) == None
  {
    assert !HasHexPrefix(u);
    assert u == [] || !IsRadixDigit(u[0], 10);
  }

  lemma SignedNoDigits(t: string)
    requires forall i :: 0 <= i < |t| ==> !IsDecimalDigit(t[i])
    ensures ParseSigned(t) == None
  {
    if t != [] && (t[0] == '-' || t[0] == '+') {
      MagnitudeNoDigits(t[1..]);
    } else {
      MagnitudeNoDigits(t);
    }
  }

  /** A string without a single decimal digit is NaN. */
  lemma ParseIntNoDigits(s: string)
    requires forall i :: 0 <= i < |s| ==> !IsDecimalDigit(s[i])
    ensures ParseInt(s) == None
  {
    var t := TrimStart(s);
    assert t == s[|s| - |t|..];
    SignedNoDigits(t);
  }

  /** The magnitude after a `0x` or `0X` prefix is read in radix 16. */
  lemma HexMagnitude(x: char, d: string)
    requires x == 'x' || x == 'X'
    requires d != [] && forall i :: 0 <= i < |d| ==> IsRadixDigit(d[i], 16)
    ensures ParseMagnitude(['0', x] + d) == Some(DigitsValue(d, 16))
  {
    var s := ['0', x] + d;
    assert HasHexPrefix(s) && s[2..] == d;
    DigitRunAppend(d, "", 16);
    assert d + "" == d && d[..|d|] == d;
  }

  /** Without a radix argument, a `0x` or `0X` prefix selects radix 16. */
  lemma ParseIntHex(x: char, d: string)
    requires x == 'x' || x == 'X'
    requires d != [] && forall i :: 0 <= i < |d| ==> IsRadixDigit(d[i], 16)
    ensures ParseInt(['0', x] + d) == Some(DigitsValue(d, 16))
  {
    var s := ['0', x] + d;
    ParseIntFromDigit(s);
    HexMagnitude(x, d);
  }

  /** The digits `10` read in radix 16. */
  lemma HexTen()
    ensures DigitsValue("10", 16) == 16
  {
    assert "10"[..1] == "1";
    assert DigitsValue("1", 16) == 1 by { assert "1"[..0] == ""; }
  }

  /** So `"0x10"` is sixteen, not zero. */
  lemma ParseIntHexPrefix()
    ensures ParseInt("0x10") == Some(16)
  {
    ParseIntHex('x', "10");
    assert ['0', 'x'] + "10" == "0x10";
    HexTen();
  }
}
