/**
 * Decimal text used by the interactive screens: the `%d` and `%f` verbs of
 * fmt.Sscanf that read typed numbers, and the `%d`, `%02d` and `%.1f` verbs
 * of fmt.Sprintf that put saved numbers back into the input boxes.
 *
 * Sscanf skips leading blanks, accepts one sign, and reads the longest run
 * of number characters; text after the number is ignored. When nothing can
 * be read the destination variable keeps its previous value, which is why
 * the scanners return an Option and callers supply the default.
 */
module NumText {
  import opened Common

  predicate IsDigit(c: char) { '0' <= c <= '9' }

  function DigitValue(c: char): nat
    requires IsDigit(c)
  {
    c as int - '0' as int
  }

  function DigitChar(d: nat): char
    requires d < 10
  {
    ('0' as int + d) as char
  }

  lemma DigitCharValue(d: nat)
    requires d < 10
    ensures IsDigit(DigitChar(d)) && DigitValue(DigitChar(d)) == d
  {
  }

  predicate AllDigits(s: string)
  {
    forall i :: 0 <= i < |s| ==> IsDigit(s[i])
  }

  /** Value of a string of decimal digits read left to right (the empty string reads as 0). */
  function DigitsValue(s: string): nat
    requires AllDigits(s)
    decreases |s|
  {
    if s == [] then 0 else 10 * DigitsValue(s[..|s| - 1]) + DigitValue(s[|s| - 1])
  }

  /** `%d` of a non-negative integer. */
  function NatToString(n: nat): (r: string)
    ensures |r| >= 1 && AllDigits(r)
    decreases n
  {
    if n < 10 then [DigitChar(n)] else NatToString(n / 10) + [DigitChar(n % 10)]
  }

  /** `%d` of any integer. */
  function IntToString(n: int): (r: string)
    ensures |r| >= 1
  {
    if n < 0 then "-" + NatToString(-n) else NatToString(n)
  }

  lemma {:induction false} NatToStringValue(n: nat)
    ensures DigitsValue(NatToString(n)) == n
    decreases n
  {
    if n >= 10 {
      var s := NatToString(n);
      assert s[..|s| - 1] == NatToString(n / 10);
      NatToStringValue(n / 10);
    }
  }

  /** Length of the longest prefix of `s` made of decimal digits. */
  function DigitRun(s: string): (k: nat)
    ensures k <= |s| && AllDigits(s[..k])
    ensures k < |s| ==> !IsDigit(s[k])
  {
    if s == [] || !IsDigit(s[0]) then 0
    else
      var k := 1 + DigitRun(s[1..]);
      assert s[..k] == [s[0]] + s[1..][..k - 1];
      k
  }

  lemma {:induction false} DigitRunPrefix(d: string, rest: string)
    requires AllDigits(d)
    requires rest == [] || !IsDigit(rest[0])
    ensures DigitRun(d + rest) == |d|
    decreases |d|
  {
    if d == [] {
      assert d + rest == rest;
    } else {
      assert (d + rest)[1..] == d[1..] + rest;
      DigitRunPrefix(d[1..], rest);
    }
  }

  // ---------------------------------------------------------------- Sscanf

  /** Blanks Sscanf skips before a number; a newline is not one of them. */
  predicate IsBlank(c: char) { IsSpace(c) && c != '\n' }

  function SkipBlanks(s: string): (r: string)
    ensures |r| <= |s| && r == s[|s| - |r|..]
    ensures r == [] || !IsBlank(r[0])
  {
    if s != [] && IsBlank(s[0]) then SkipBlanks(s[1..]) else s
  }

  /** The optional sign in front of a number: whether it is negative, and the text after it. */
  function SplitSign(t: string): (bool, string)
  {
    if |t| > 0 && (t[0] == '+' || t[0] == '-') then (t[0] == '-', t[1..]) else (false, t)
  }

  const MinInt64: int := -0x8000_0000_0000_0000
  const MaxInt64: int := 0x7fff_ffff_ffff_ffff

  /** fmt.Sscanf(s, "%d", &v): the value read, or None when `v` is left untouched. */
  function ScanInt(s: string): (r: Option<int>)
    ensures r.Some? ==> MinInt64 <= r.value <= MaxInt64
  {
    var (neg, u) := SplitSign(SkipBlanks(s));
    SignedDigits(neg, u)
  }

  /** The digits at the start of `u`, negated when `neg`, if there are any and the value fits 64 bits. */
  function SignedDigits(neg: bool, u: string): (r: Option<int>)
    ensures r.Some? ==> MinInt64 <= r.value <= MaxInt64
  {
    var k := DigitRun(u);
    if k == 0 then None
    else
      var v := if neg then -(DigitsValue(u[..k]) as int) else DigitsValue(u[..k]) as int;
      if MinInt64 <= v <= MaxInt64 then Some(v) else None
  }

  lemma NoBlankToSkip(t: string)
    requires t != [] && !IsBlank(t[0])
    ensures SkipBlanks(t) == t
  {
  }

  lemma SignOfIntToString(n: int, rest: string)
    ensures SplitSign(IntToString(n) + rest) == (n < 0, NatToString(if n < 0 then -n else n) + rest)
  {
    var d := NatToString(if n < 0 then -n else n);
    if n < 0 {
      assert IntToString(n) + rest == "-" + (d + rest);
    } else {
      assert IntToString(n) + rest == d + rest;
    }
  }

  /** A number written by `%d` is read back by `%d`, whatever non-digit text follows it. */
  lemma ScanIntOfIntToString(n: int, rest: string)
    requires MinInt64 <= n <= MaxInt64
    requires rest == [] || !IsDigit(rest[0])
    ensures ScanInt(IntToString(n) + rest) == Some(n)
  {
    var m: nat := if n < 0 then -n else n;
    var d := NatToString(m);
    var t := IntToString(n) + rest;
    assert SplitSign(SkipBlanks(t)) == (n < 0, d + rest) by {
      NoBlankToSkip(t);
      SignOfIntToString(n, rest);
    }
    SignedDigitsOf(n, d, rest);
  }

  lemma SignedDigitsOf(n: int, d: string, rest: string)
    requires MinInt64 <= n <= MaxInt64
    requires d == NatToString(if n < 0 then -n else n)
    requires rest == [] || !IsDigit(rest[0])
    ensures SignedDigits(n < 0, d + rest) == Some(n)
  {
    var m: nat := if n < 0 then -n else n;
    assert DigitRun(d + rest) == |d| && (d + rest)[..|d|] == d by {
      DigitRunPrefix(d, rest);
    }
    assert DigitsValue(d) == m by {
      NatToStringValue(m);
    }
  }

  /** Text with no digit after the blanks and sign reads nothing. */
  lemma ScanIntNeedsDigit(s: string)
    requires forall i :: 0 <= i < |s| ==> !IsDigit(s[i])
    ensures ScanInt(s) == None
  {
    var t := SkipBlanks(s);
    var (neg, u) := SplitSign(t);
    assert u == [] || u[0] in s;
  }

  function Pow10(n: nat): (p: nat)
    ensures p >= 1
  {
    if n == 0 then 1 else 10 * Pow10(n - 1)
  }

  lemma {:induction false} Pow10Grows(m: nat, n: nat)
    requires m <= n
    ensures Pow10(m) <= Pow10(n)
    decreases n
  {
    if m < n {
      Pow10Grows(m, n - 1);
    }
  }

  /** k digits read as less than 10^k. */
  lemma {:induction false} DigitsValueBound(s: string)
    requires AllDigits(s)
    ensures DigitsValue(s) < Pow10(|s|)
    decreases |s|
  {
    if s != [] {
      DigitsValueBound(s[..|s| - 1]);
    }
  }

  /** The number `%d` reads from a short text is shorter still: below 10^|s|. */
  lemma ScanIntBound(s: string)
    requires ScanInt(s).Some?
    ensures ScanInt(s).value < Pow10(|s|)
  {
    var (neg, u) := SplitSign(SkipBlanks(s));
    var k := DigitRun(u);
    DigitsValueBound(u[..k]);
    Pow10Grows(k, |s|);
  }

  /** A number below 10^k is written with at most k digits. */
  lemma {:induction false} NatToStringLength(n: nat, k: nat)
    requires 1 <= k && n < Pow10(k)
    ensures |NatToString(n)| <= k
    decreases k
  {
    if n >= 10 {
      NatToStringLength(n / 10, k - 1);
    }
  }

  /** Characters Go gathers into a `%f` token besides digits: the underscore, which strconv accepts only between two digits. */
  predicate IsNumberChar(c: char) { IsDigit(c) || c == '_' }

  /**
   * strconv's rule for underscores in a decimal number: only digits and
   * underscores, and every underscore stands between two digits.
   */
  predicate SeparatedDigits(s: string)
  {
    (forall i :: 0 <= i < |s| ==> IsNumberChar(s[i])) &&
    (forall i :: 0 <= i < |s| && s[i] == '_' ==> 0 < i < |s| - 1 && IsDigit(s[i - 1]) && IsDigit(s[i + 1]))
  }

  /** The digits of `s`, with the separating underscores dropped. */
  function Unseparated(s: string): (r: string)
    ensures AllDigits(r) && |r| <= |s|
  {
    if s == [] then []
    else if IsDigit(s[0]) then [s[0]] + Unseparated(s[1..])
    else Unseparated(s[1..])
  }

  /** Plain digits are separated correctly and lose nothing when the underscores are dropped. */
  lemma {:induction false} DigitsAreSeparated(s: string)
    requires AllDigits(s)
    ensures SeparatedDigits(s) && Unseparated(s) == s
  {
    if s != [] {
      DigitsAreSeparated(s[1..]);
      assert [s[0]] + s[1..] == s;
    }
  }

  function NumberRun(s: string): (k: nat)
    ensures k <= |s|
    ensures k < |s| ==> !IsNumberChar(s[k])
  {
    if s == [] || !IsNumberChar(s[0]) then 0 else 1 + NumberRun(s[1..])
  }

  /** The longest prefix of number characters, and the text after it. */
  function Run(s: string): (string, string)
  {
    var k := NumberRun(s);
    (s[..k], s[k..])
  }

  lemma {:induction false} RunOfDigits(d: string, rest: string)
    requires forall i :: 0 <= i < |d| ==> IsNumberChar(d[i])
    requires rest == [] || !IsNumberChar(rest[0])
    ensures Run(d + rest) == (d, rest)
    decreases |d|
  {
    if d == [] {
      assert d + rest == rest;
    } else {
      assert (d + rest)[1..] == d[1..] + rest;
      RunOfDigits(d[1..], rest);
      assert NumberRun(d + rest) == |d|;
      assert (d + rest)[..|d|] == d;
      assert (d + rest)[|d|..] == rest;
    }
  }

  /** Value of the digits after a decimal point: `0.f`. */
  function FractionValue(f: string): real
    requires AllDigits(f)
  {
    if f == [] then 0.0 else (DigitValue(f[0]) as real + FractionValue(f[1..])) / 10.0
  }

  /** `x * 10^e` for a signed exponent `e`. */
  function ScaleBy10(x: real, e: int): real
    decreases if e < 0 then -e else e
  {
    if e == 0 then x else if e > 0 then ScaleBy10(x * 10.0, e - 1) else ScaleBy10(x / 10.0, e + 1)
  }

  /** The value of `i.f * 10^e` for digit strings `i`, `f` and a signed exponent `e`. */
  function DecimalValue(i: string, f: string, e: int): real
    requires AllDigits(i) && AllDigits(f)
  {
    ScaleBy10(DigitsValue(i) as real + FractionValue(f), e)
  }

  /** Whole digits, fraction digits after an optional point, and the remaining text. */
  function ScanMantissa(u: string): (string, string, string)
  {
    var (ip, rest) := Run(u);
    if |rest| > 0 && rest[0] == '.' then
      var (fp, rest2) := Run(rest[1..]);
      (ip, fp, rest2)
    else (ip, "", rest)
  }

  /** `x * 2^e` for a signed exponent `e`. */
  function ScaleBy2(x: real, e: int): real
    decreases if e < 0 then -e else e
  {
    if e == 0 then x else if e > 0 then ScaleBy2(x * 2.0, e - 1) else ScaleBy2(x / 2.0, e + 1)
  }

  /** An exponent: a power of ten after `e`/`E`, or a power of two after `p`. */
  datatype Exponent = Exponent(binary: bool, power: int)

  /**
   * An optional exponent. After 'e' or 'E' strconv.ParseFloat reads a power
   * of ten whose digits may be separated by underscores. After a lower-case
   * 'p' fmt itself reads a power of two with strconv.Atoi, which takes
   * digits only. A 'P' reaches strconv.ParseFloat inside the token, which
   * rejects it. Power 0 of ten when there is no exponent, None when the
   * exponent cannot be read.
   */
  function ScanExponent(rest: string): Option<Exponent>
  {
    if |rest| > 0 && rest[0] in "eEpP" then
      var (eneg, v) := SplitSign(rest[1..]);
      var (ep, _) := Run(v);
      if rest[0] == 'P' || ep == [] then None
      else if rest[0] == 'p' then
        if AllDigits(ep) then Some(Exponent(true, if eneg then -(DigitsValue(ep) as int) else DigitsValue(ep) as int))
        else None
      else if SeparatedDigits(ep) then
        var k := DigitsValue(Unseparated(ep));
        Some(Exponent(false, if eneg then -(k as int) else k as int))
      else None
    else Some(Exponent(false, 0))
  }

  /** Text `%f` starts reading as NaN, an infinity or a hexadecimal mantissa. */
  predicate SpecialStart(u: string)
  {
    (|u| > 0 && (u[0] == 'n' || u[0] == 'N' || u[0] == 'i' || u[0] == 'I'))
    || (|u| > 1 && u[0] == '0' && (u[1] == 'x' || u[1] == 'X'))
  }

  /** The unsigned number at the start of `u`, if strconv.ParseFloat accepts the token. */
  function FloatDigits(u: string): Option<real>
  {
    if SpecialStart(u) then None
    else
      var (ip, fp, rest) := ScanMantissa(u);
      var e := ScanExponent(rest);
      if !SeparatedDigits(ip) || !SeparatedDigits(fp) || |ip| + |fp| == 0 || e.None? then None
      else if e.value.binary then Some(ScaleBy2(DecimalValue(Unseparated(ip), Unseparated(fp), 0), e.value.power))
      else Some(DecimalValue(Unseparated(ip), Unseparated(fp), e.value.power))
  }

  /**
   * fmt.Sscanf(s, "%f", &v) for a float64: digits with an optional
   * fraction and exponent, where fmt reads `m p k` itself as m * 2^k.
   * strconv.ParseFloat accepts an underscore only between two digits, and
   * rejects a mantissa without digits, an exponent without digits and an
   * upper-case 'P'; in those cases `v` is left untouched. NaN, infinities
   * and hexadecimal mantissas are read as nothing, and no float64 range
   * limit applies.
   */
  function ScanFloat(s: string): (r: Option<real>)
  {
    var (neg, u) := SplitSign(SkipBlanks(s));
    SignedFloat(neg, u)
  }

  /** Text Go's `%f` reads as NaN or an infinity: "nan" before any sign, or "inf" after one, in any letter case. */
  predicate SpellsNaNOrInf(s: string)
  {
    var t := SkipBlanks(s);
    var u := SplitSign(t).1;
    (|t| >= 3 && t[0] in "nN" && t[1] in "aA" && t[2] in "nN") ||
    (|u| >= 3 && u[0] in "iI" && u[1] in "nN" && u[2] in "fF")
  }

  /** fmt's decimal-plus-binary exponent: "1p5" reads as 1 * 2^5, and "1p" without exponent digits as nothing. */
  lemma BinaryExponentExamples()
    ensures ScanFloat("1p5") == Some(32.0)
    ensures ScanFloat("1p") == None
  {
    BinaryExponentFive();
    BinaryExponentMissing();
  }

  lemma BinaryExponentFive()
    ensures ScanFloat("1p5") == Some(32.0)
  {
    assert "1" + "p" + "5" == "1p5";
    BinaryExponentReads("1", "5");
    assert DigitsValue("1") == 1 && DigitsValue("5") == 5;
    assert ScaleBy2(1.0, 5) == 32.0;
  }

  /** Digits, a lower-case "p" and digits read as the first number times two to the power of the second. */
  lemma BinaryExponentReads(ip: string, ep: string)
    requires ip != [] && AllDigits(ip) && ep != [] && AllDigits(ep)
    ensures ScanFloat(ip + "p" + ep) == Some(ScaleBy2(DigitsValue(ip) as real, DigitsValue(ep)))
  {
    var u := ip + "p" + ep;
    assert u == ip + ("p" + ep);
    assert u[0] == ip[0];
    UnsignedText(u);
    DigitsThen(ip, "p" + ep);
    BinaryExponentDigits(ep);
    DigitsAreSeparated(ip);
    DigitsAreSeparated("");
    assert FractionValue("") == 0.0;
  }

  lemma BinaryExponentDigits(ep: string)
    requires ep != [] && AllDigits(ep)
    ensures ScanExponent("p" + ep) == Some(Exponent(true, DigitsValue(ep)))
  {
    assert ("p" + ep)[1..] == ep;
    assert SplitSign(ep) == (false, ep);
    assert Run(ep) == (ep, "") by {
      assert ep + "" == ep;
      RunOfDigits(ep, "");
    }
  }

  lemma BinaryExponentMissing()
    ensures ScanFloat("1p") == None
  {
    assert "1" + "p" == "1p";
    assert IsDigit('1');
    MissingBinaryDigits("1");
  }

  /** Digits followed by a bare "p" do not read as a number. */
  lemma MissingBinaryDigits(ip: string)
    requires ip != [] && IsDigit(ip[0]) && AllDigits(ip)
    ensures ScanFloat(ip + "p") == None
  {
    var u := ip + "p";
    assert u[0] == ip[0];
    assert SplitSign(SkipBlanks(u)) == (false, u) by { NoBlankToSkip(u); }
    ScanFloatSplit(u, false, u);
    DigitsThen(ip, "p");
    BarePExponent();
  }

  lemma BarePExponent()
    ensures ScanExponent("p") == None
  {
    assert SplitSign([]) == (false, []);
    assert NumberRun([]) == 0;
  }

  /** An upper-case 'P' after the digits is not fmt's binary exponent: the whole text reads as nothing. */
  lemma UpperPNeverReads(ip: string, tail: string)
    requires ip != [] && AllDigits(ip)
    ensures ScanFloat(ip + "P" + tail) == None
  {
    var u := ip + "P" + tail;
    assert u == ip + ("P" + tail);
    assert u[0] == ip[0];
    assert SplitSign(SkipBlanks(u)) == (false, u) by { NoBlankToSkip(u); }
    ScanFloatSplit(u, false, u);
    DigitsThen(ip, "P" + tail);
    UpperPExponent(tail);
  }

  lemma DigitsThen(ip: string, rest: string)
    requires AllDigits(ip) && rest != [] && !IsNumberChar(rest[0])
    requires rest[0] != '.' && rest[0] != 'x' && rest[0] != 'X'
    ensures ScanMantissa(ip + rest) == (ip, "", rest)
    ensures !SpecialStart(ip + rest) || (ip == [] && SpecialStart(rest))
  {
    var u := ip + rest;
    assert Run(u) == (ip, rest) by { RunOfDigits(ip, rest); }
    if ip != [] {
      assert u[0] == ip[0];
      assert |u| > 1 ==> u[1] == rest[0] || IsDigit(u[1]);
    } else {
      assert u == rest;
    }
  }

  lemma UpperPExponent(tail: string)
    ensures ScanExponent("P" + tail) == None
  {
  }

  /** Digits with underscores between them read as the number their digits spell. */
  lemma SeparatedText(s: string)
    requires s != [] && SeparatedDigits(s)
    ensures ScanFloat(s) == Some(DigitsValue(Unseparated(s)) as real)
  {
    assert IsDigit(s[0]);
    assert SplitSign(SkipBlanks(s)) == (false, s) by { NoBlankToSkip(s); }
    ScanFloatSplit(s, false, s);
    FloatDigitsOfRun(s);
  }

  /** A text made of one run of digits and underscores reads as its digits exactly when they are separated correctly. */
  lemma FloatDigitsOfRun(u: string)
    requires u != [] && IsDigit(u[0]) && forall i :: 0 <= i < |u| ==> IsNumberChar(u[i])
    ensures FloatDigits(u) == if SeparatedDigits(u) then Some(DigitsValue(Unseparated(u)) as real) else None
  {
    assert |u| > 1 ==> IsNumberChar(u[1]);
    assert !SpecialStart(u);
    assert Run(u) == (u, "") by {
      assert u + "" == u;
      RunOfDigits(u, "");
    }
    assert ScanMantissa(u) == (u, "", "");
    assert ScanExponent("") == Some(Exponent(false, 0));
    DigitsAreSeparated("");
    assert FractionValue("") == 0.0;
  }

  /** "1_000" reads as 1000, as strconv.ParseFloat reads it. */
  lemma SeparatedThousands()
    ensures ScanFloat("1_000") == Some(1000.0)
  {
    ThousandsDigits();
    SeparatedText("1_000");
  }

  lemma ThousandsDigits()
    ensures SeparatedDigits("1_000") && Unseparated("1_000") == "1000" && DigitsValue("1000") == 1000
  {
    assert "1_000"[1..] == "_000";
    assert "_000"[1..] == "000";
    DigitsAreSeparated("000");
    assert "1000"[..3] == "100" && "100"[..2] == "10" && "10"[..1] == "1";
  }

  /** An underscore that is not followed by a digit makes the whole text unreadable. */
  lemma TrailingUnderscore(ip: string)
    requires ip != [] && AllDigits(ip)
    ensures ScanFloat(ip + "_") == None
  {
    var u := ip + "_";
    assert u[0] == ip[0];
    UnsignedText(u);
    assert forall i :: 0 <= i < |u| ==> IsNumberChar(u[i]) by {
      forall i | 0 <= i < |u| ensures IsNumberChar(u[i]) {
        if i < |ip| { assert u[i] == ip[i]; }
      }
    }
    FloatDigitsOfRun(u);
    assert !SeparatedDigits(u) by {
      assert u[|u| - 1] == '_' && !(|u| - 1 < |u| - 1);
    }
  }

  /** Text that starts with a digit reads as the number at its start. */
  lemma UnsignedText(u: string)
    requires u != [] && IsDigit(u[0])
    ensures ScanFloat(u) == FloatDigits(u)
  {
    assert SplitSign(SkipBlanks(u)) == (false, u) by { NoBlankToSkip(u); }
    ScanFloatSplit(u, false, u);
  }

  /** The number at the start of `u`, negated when `neg`. */
  function SignedFloat(neg: bool, u: string): (r: Option<real>)
  {
    match FloatDigits(u)
    case None => None
    case Some(x) => Some(if neg then -x else x)
  }

  // ---------------------------------------------------------------- Sprintf

  function Abs(x: real): real { if x < 0.0 then -x else x }

  /** Rounding to the nearest integer, ties to even, as strconv does for exactly representable ties. */
  function RoundHalfEven(x: real): (n: int)
    ensures x - 1.0 / 2.0 <= n as real <= x + 1.0 / 2.0
    ensures x >= 0.0 ==> n >= 0
  {
    var f := x.Floor;
    var d := x - f as real;
    if d < 1.0 / 2.0 then f
    else if d > 1.0 / 2.0 then f + 1
    else if f % 2 == 0 then f else f + 1
  }

  /** The number of tenths `%.1f` prints for `w` (without its sign). */
  function TenthsOf(w: real): nat
  {
    var n := RoundHalfEven(Abs(w) * 10.0);
    assert n >= 0;
    n
  }

  /** Text of the `%.1f` shape: optional minus, whole part, a point and one decimal. */
  function TenthsText(neg: bool, whole: nat, tenth: nat): string
    requires tenth < 10
  {
    (if neg then "-" else "") + NatToString(whole) + "." + [DigitChar(tenth)]
  }

  /** The value a text of the `%.1f` shape stands for. */
  function TenthsValue(neg: bool, whole: nat, tenth: nat): real
  {
    var x := whole as real + tenth as real / 10.0;
    if neg then -x else x
  }

  /** `w` rounded to one decimal place, the value `%.1f` shows. */
  function RoundTenths(w: real): real
  {
    var n := TenthsOf(w);
    TenthsValue(w < 0.0, n / 10, n % 10)
  }

  /** The value `%.1f` shows is within half a tenth of the true value. */
  lemma RoundTenthsNear(w: real)
    ensures -1.0 / 20.0 <= RoundTenths(w) - w <= 1.0 / 20.0
  {
    SplitTenths(TenthsOf(w));
  }

  /** fmt.Sprintf("%.1f", w). */
  function FormatTenths(w: real): string
  {
    var n := TenthsOf(w);
    TenthsText(w < 0.0, n / 10, n % 10)
  }

  lemma FloatDigitsPlain(u: string, ip: string, fp: string)
    requires |u| > 0 && IsDigit(u[0]) && (|u| > 1 ==> u[1] != 'x' && u[1] != 'X')
    requires ScanMantissa(u) == (ip, fp, "")
    requires AllDigits(ip) && AllDigits(fp) && |ip| + |fp| > 0
    ensures FloatDigits(u) == Some(DecimalValue(ip, fp, 0))
  {
    assert !SpecialStart(u);
    assert ScanExponent("") == Some(Exponent(false, 0));
    DigitsAreSeparated(ip);
    DigitsAreSeparated(fp);
  }

  /** Text of the `%.1f` shape reads back as its whole part plus its tenths. */
  lemma ScanTenthsText(neg: bool, whole: nat, tenth: nat)
    requires tenth < 10
    ensures ScanFloat(TenthsText(neg, whole, tenth)) == Some(TenthsValue(neg, whole, tenth))
  {
    var ip := NatToString(whole);
    var fp := [DigitChar(tenth)];
    var u := ip + "." + fp;
    var t := TenthsText(neg, whole, tenth);
    assert ScanFloat(t) == SignedFloat(neg, u) by {
      assert t == (if neg then "-" else "") + u;
      SignBeforeDigits(neg, u, t);
      ScanFloatSplit(t, neg, u);
    }
    FloatDigitsTenths(whole, tenth, ip, fp, u);
    SignedTenths(neg, whole, tenth, u);
  }

  lemma SignedTenths(neg: bool, whole: nat, tenth: nat, u: string)
    requires FloatDigits(u) == Some(whole as real + tenth as real / 10.0)
    ensures SignedFloat(neg, u) == Some(TenthsValue(neg, whole, tenth))
  {
  }

  lemma ScanFloatSplit(t: string, neg: bool, u: string)
    requires SplitSign(SkipBlanks(t)) == (neg, u)
    ensures ScanFloat(t) == SignedFloat(neg, u)
  {
  }

  lemma SignBeforeDigits(neg: bool, u: string, t: string)
    requires u != [] && IsDigit(u[0])
    requires t == (if neg then "-" else "") + u
    ensures SplitSign(SkipBlanks(t)) == (neg, u)
  {
    assert t[0] == (if neg then '-' else u[0]);
    NoBlankToSkip(t);
    if neg {
      assert t[1..] == u;
    }
  }

  lemma FloatDigitsTenths(whole: nat, tenth: nat, ip: string, fp: string, u: string)
    requires tenth < 10
    requires ip == NatToString(whole) && fp == [DigitChar(tenth)] && u == ip + "." + fp
    ensures FloatDigits(u) == Some(whole as real + tenth as real / 10.0)
  {
    DigitCharValue(tenth);
    assert AllDigits(fp);
    assert ScanMantissa(u) == (ip, fp, "") by {
      RunOfDigits(ip, "." + fp);
      assert u == ip + ("." + fp);
      RunOfDigits(fp, "");
      assert fp + "" == fp && ("." + fp)[1..] == fp;
    }
    DecimalTenths(whole, tenth);
    assert u[0] == ip[0] && (|u| > 1 ==> u[1] == '.' || u[1] == ip[1]);
    FloatDigitsPlain(u, ip, fp);
  }

  lemma DecimalTenths(whole: nat, tenth: nat)
    requires tenth < 10
    ensures DecimalValue(NatToString(whole), [DigitChar(tenth)], 0) == whole as real + tenth as real / 10.0
  {
    var fp := [DigitChar(tenth)];
    NatToStringValue(whole);
    DigitCharValue(tenth);
    assert FractionValue(fp) == tenth as real / 10.0 by {
      assert fp[1..] == "";
    }
  }

  /** What `%.1f` writes, `%f` reads back: the value rounded to one decimal place. */
  lemma ScanFormatTenths(w: real)
    ensures ScanFloat(FormatTenths(w)) == Some(RoundTenths(w))
  {
    var n := TenthsOf(w);
    ScanTenthsText(w < 0.0, n / 10, n % 10);
  }

  lemma SplitTenths(n: nat)
    ensures (n / 10) as real + (n % 10) as real / 10.0 == n as real / 10.0
  {
    var q, r := n / 10, n % 10;
    assert n == 10 * q + r;
    assert n as real == 10.0 * q as real + r as real;
  }

  lemma TwoDigits(n: int)
    ensures 10 <= n < 100 ==> |IntToString(n)| == 2 && AllDigits(IntToString(n)) && DigitsValue(IntToString(n)) == n
  {
    if 10 <= n < 100 {
      NatToStringValue(n);
      assert NatToString(n / 10) == [DigitChar(n / 10)];
    }
  }

  /** `%02d`: at least two characters, zero-padded after any sign. */
  function Pad2(n: int): (r: string)
    ensures 0 <= n < 100 ==> |r| == 2 && AllDigits(r) && DigitsValue(r) == n
  {
    if 0 <= n < 10 then
      assert DigitsValue("0" + NatToString(n)) == n by {
        assert ("0" + NatToString(n))[..1] == "0";
        assert "0"[..0] == "";
      }
      "0" + NatToString(n)
    else
      TwoDigits(n);
      IntToString(n)
  }
}
