/** The JavaScript number-to-text and text-to-number operations the invoice
    code relies on, on exact values: `toFixed(2)` (section 21.1.3.3 of
    ECMA-262), `toString` of an integer, `padStart` with "0", and
    `parseFloat` (section 19.2.4 of ECMA-262). */
module NumberText {
  import opened Types

  // ---------------------------------------------------------------------------
  // toFixed(2)

  /** x is a whole number of hundredths (paise). */
  predicate IsCents(x: real) {
    (x * 100.0).Floor as real == x * 100.0
  }

  function Abs(x: real): real { if x < 0.0 then -x else x }

  /** The integer n that toFixed(2) picks: n / 100 is nearest to |x|, the
      larger n on a tie, and the sign of x is put back in front. */
  function RoundCents(x: real): int {
    if x >= 0.0 then (x * 100.0 + 0.5).Floor else -((-x * 100.0 + 0.5).Floor)
  }

  /** Number(x.toFixed(2)) on the exact value x. */
  function Round2(x: real): (r: real)
    ensures IsCents(r)
    ensures -0.005 <= r - x <= 0.005
  {
    RoundCents(x) as real / 100.0
  }

  /** Rounding half up on a non-negative y: n = Floor(y + 1/2) is an integer
      nearest to y, and any other equally near integer is smaller. */
  lemma NearestHalfUp(y: real, m: int)
    requires y >= 0.0
    ensures var n := (y + 0.5).Floor;
            Abs(n as real - y) <= Abs(m as real - y) &&
            (Abs(m as real - y) == Abs(n as real - y) && m != n ==> 0 <= m < n)
  {
    var n := (y + 0.5).Floor;
    assert n as real - 0.5 <= y < n as real + 0.5;
    if m < n {
      assert m as real <= n as real - 1.0;
    } else if m > n {
      assert m as real >= n as real + 1.0;
    }
  }

  /** Round2 picks the nearest hundredth, and on a tie the one farther from
      zero, as toFixed does on the magnitude: no whole number m of hundredths
      is nearer to x, and one as near is smaller in magnitude. */
  lemma Round2Nearest(x: real, m: int)
    ensures Abs(RoundCents(x) as real - x * 100.0) <= Abs(m as real - x * 100.0)
    ensures Abs(m as real - x * 100.0) == Abs(RoundCents(x) as real - x * 100.0) && m != RoundCents(x)
            ==> Abs(m as real) < Abs(RoundCents(x) as real)
  {
    if x >= 0.0 {
      NearestHalfUp(x * 100.0, m);
    } else {
      NearestHalfUp(-x * 100.0, -m);
      var n := (-x * 100.0 + 0.5).Floor;
      assert RoundCents(x) == -n;
      assert Abs(-n as real - x * 100.0) == Abs(n as real - (-x * 100.0));
      assert Abs(m as real - x * 100.0) == Abs(-m as real - (-x * 100.0));
    }
  }

  /** Rounding a whole number of hundredths changes nothing. */
  lemma Round2OfCents(x: real)
    requires IsCents(x)
    ensures Round2(x) == x
  {
    var k := (x * 100.0).Floor;
    assert x * 100.0 == k as real;
    if x >= 0.0 {
      assert (x * 100.0 + 0.5).Floor == k;
    } else {
      assert (-x * 100.0 + 0.5).Floor == -k;
    }
  }

  /** toFixed(2) is symmetric about zero. */
  lemma RoundCentsNegate(x: real)
    requires x > 0.0
    ensures RoundCents(-x) == -RoundCents(x)
  {
  }

  /** On a ratio n / d of integers with d a positive constant, Floor is the
      integer (floor) division of Dafny. */
  lemma FloorOfRatio(n: int, d: int)
    requires d == 2 || d == 4 || d == 236
    ensures ((n as real) / (d as real)).Floor == n / d
  {
    var q, r := n / d, n % d;
    assert n == q * d + r && 0 <= r < d;
    assert (n as real) / (d as real) == q as real + (r as real) / (d as real);
  }

  // ---------------------------------------------------------------------------
  // Digits, toString and padStart

  predicate IsDigit(c: char) { '0' <= c <= '9' }

  predicate AllDigits(s: string) {
    forall i :: 0 <= i < |s| ==> IsDigit(s[i])
  }

  function DigitValue(c: char): (v: nat)
    requires IsDigit(c)
    ensures v < 10
  {
    (c as int) - ('0' as int)
  }

  function DigitChar(v: nat): (c: char)
    requires v < 10
    ensures IsDigit(c) && DigitValue(c) == v
  {
    (('0' as int) + v) as char
  }

  /** The value of a string of decimal digits, most significant first. */
  function DigitsValue(s: string): nat
    requires AllDigits(s)
  {
    if s == [] then 0 else DigitsValue(s[..|s| - 1]) * 10 + DigitValue(s[|s| - 1])
  }

  function Pow10(k: nat): (p: nat)
    ensures p >= 1
  {
    if k == 0 then 1 else 10 * Pow10(k - 1)
  }

  /** Number.prototype.toString() of a non-negative integer. */
  function NatToString(n: nat): (s: string)
    ensures |s| >= 1 && AllDigits(s)
  {
    if n < 10 then [DigitChar(n)] else NatToString(n / 10) + [DigitChar(n % 10)]
  }

  /** Number.prototype.toString() of an integer. */
  function IntToString(i: int): (s: string)
    ensures |s| >= 1
  {
    if i < 0 then "-" + NatToString(-i) else NatToString(i)
  }

  /** Reading back the digits NatToString writes gives the number. */
  lemma {:induction false} NatToStringValue(n: nat)
    ensures DigitsValue(NatToString(n)) == n
  {
    if n >= 10 {
      NatToStringValue(n / 10);
      var s := NatToString(n);
      assert s[..|s| - 1] == NatToString(n / 10);
    }
  }

  /** A number below 10^k (k >= 1) takes at most k digits. */
  lemma {:induction false} NatToStringLength(n: nat, k: nat)
    requires k >= 1 && n < Pow10(k)
    ensures |NatToString(n)| <= k
  {
    if n >= 10 {
      assert k >= 2;
      NatToStringLength(n / 10, k - 1);
    }
  }

  function Zeros(k: nat): (s: string)
    ensures |s| == k && AllDigits(s)
  {
    if k == 0 then "" else "0" + Zeros(k - 1)
  }

  /** String.prototype.padStart(n, "0"). */
  function PadStart(s: string, n: nat): (r: string)
    ensures |r| == if |s| >= n then |s| else n
    ensures |s| < n ==> r[n - |s|..] == s
  {
    if |s| >= n then s else Zeros(n - |s|) + s
  }

  /** Leading zeros do not change the value of a digit string. */
  lemma {:induction false} ZerosPrefixValue(k: nat, s: string)
    requires AllDigits(s)
    ensures AllDigits(Zeros(k) + s) && DigitsValue(Zeros(k) + s) == DigitsValue(s)
  {
    var t := Zeros(k) + s;
    assert AllDigits(t) by {
      forall i | 0 <= i < |t| ensures IsDigit(t[i]) {
        if i < k { assert t[i] == Zeros(k)[i]; } else { assert t[i] == s[i - k]; }
      }
    }
    if s == [] {
      assert t == Zeros(k);
      ZerosValue(k);
    } else {
      var u := s[..|s| - 1];
      ZerosPrefixValue(k, u);
      assert t[..|t| - 1] == Zeros(k) + u;
      assert t[|t| - 1] == s[|s| - 1];
    }
  }

  lemma {:induction false} ZerosValue(k: nat)
    ensures DigitsValue(Zeros(k)) == 0
  {
    if k > 0 {
      ZerosValue(k - 1);
      var z := Zeros(k);
      ZerosSnoc(k - 1);
      assert z == Zeros(k - 1) + "0";
      assert z[..|z| - 1] == Zeros(k - 1);
    }
  }

  lemma {:induction false} ZerosSnoc(k: nat)
    ensures Zeros(k + 1) == Zeros(k) + "0"
  {
    if k > 0 { ZerosSnoc(k - 1); }
  }

  /** Padding a number of at most n digits gives exactly n digits that still
      read back as the number. */
  lemma PadNatValue(v: nat, n: nat)
    requires n >= 1 && v < Pow10(n)
    ensures |PadStart(NatToString(v), n)| == n
    ensures AllDigits(PadStart(NatToString(v), n))
    ensures DigitsValue(PadStart(NatToString(v), n)) == v
  {
    var d := NatToString(v);
    NatToStringLength(v, n);
    NatToStringValue(v);
    var p := PadStart(d, n);
    if |d| < n {
      assert p == Zeros(n - |d|) + d;
      ZerosPrefixValue(n - |d|, d);
    } else {
      assert p == d;
    }
  }

  // ---------------------------------------------------------------------------
  // parseFloat

  /** StrWhiteSpaceChar of ECMA-262: WhiteSpace (tab, vertical tab, form
      feed, zero-width no-break space and the space separators) and
      LineTerminator. */
  predicate IsJsSpace(c: char) {
    c == '\t' || c == '\U{000B}' || c == '\U{000C}' || c == '\U{FEFF}' ||
    c == ' ' || c == '\U{00A0}' || c == '\U{1680}' || ('\U{2000}' <= c <= '\U{200A}') ||
    c == '\U{202F}' || c == '\U{205F}' || c == '\U{3000}' ||
    c == '\n' || c == '\r' || c == '\U{2028}' || c == '\U{2029}'
  }

  function TrimStart(s: string): (t: string)
    ensures |t| <= |s|
    ensures t != [] ==> !IsJsSpace(t[0])
  {
    if s != [] && IsJsSpace(s[0]) then TrimStart(s[1..]) else s
  }

  /** The length of the run of digits that s starts with. */
  function LeadingDigits(s: string): (k: nat)
    ensures k <= |s| && AllDigits(s[..k])
    ensures k < |s| ==> !IsDigit(s[k])
  {
    if s == [] || !IsDigit(s[0]) then 0
    else
      var k := 1 + LeadingDigits(s[1..]);
      assert s[..k] == [s[0]] + s[1..][..k - 1];
      k
  }

  /** m * 10^e for an integer exponent, one factor of ten at a time. */
  function ScaleBy(m: real, e: int): real
    decreases if e >= 0 then e else -e
  {
    if e == 0 then m
    else if e > 0 then 10.0 * ScaleBy(m, e - 1)
    else ScaleBy(m, e + 1) / 10.0
  }

  /** The exponent part ("e", optional sign, digits) at the head of s, if a
      complete one is there. */
  function ExponentPart(s: string): Option<int> {
    if s == [] || (s[0] != 'e' && s[0] != 'E') then None
    else
      var t := s[1..];
      var neg := t != [] && t[0] == '-';
      var u := if t != [] && (t[0] == '-' || t[0] == '+') then t[1..] else t;
      var k := LeadingDigits(u);
      if k == 0 then None
      else
        var e: int := DigitsValue(u[..k]);
        Some(if neg then -e else e)
  }

  /** A StrUnsignedDecimalLiteral as written: the digits before the point,
      the digits after it and the exponent part, if any. */
  datatype Literal = Literal(whole: string, fraction: string, exponent: Option<int>)

  predicate WellFormed(l: Literal) {
    AllDigits(l.whole) && AllDigits(l.fraction) && |l.whole| + |l.fraction| >= 1
  }

  /** The longest StrUnsignedDecimalLiteral at the head of s, without the
      Infinity form: digits, optionally a point and more digits (at least one
      digit in all), optionally an exponent part. None when there is none. */
  function ScanDecimal(s: string): (r: Option<Literal>)
    ensures r.Some? ==> WellFormed(r.value)
  {
    var k := LeadingDigits(s);
    var point := k < |s| && s[k] == '.';
    var rest := if point then s[k + 1..] else s[k..];
    var f := if point then LeadingDigits(rest) else 0;
    if k == 0 && f == 0 then None
    else Some(Literal(s[..k], rest[..f], ExponentPart(rest[f..])))
  }

  /** The mathematical value of a literal: whole.fraction * 10^exponent. */
  function LiteralValue(l: Literal): real
    requires WellFormed(l)
  {
    var mantissa := DigitsValue(l.whole) as real + FractionValue(l.fraction);
    match l.exponent
    case None => mantissa
    case Some(e) => ScaleBy(mantissa, e)
  }

  /** The value of the digits after a decimal point. */
  function FractionValue(digits: string): real
    requires AllDigits(digits)
  {
    ScaleBy(DigitsValue(digits) as real, -|digits|)
  }

  /** parseFloat: leading white space is skipped, a sign is read, and then
      the longest decimal literal; None stands for NaN. */
  function ParseFloat(s: string): Option<real> {
    var t := TrimStart(s);
    var signed := t != [] && (t[0] == '-' || t[0] == '+');
    match ScanDecimal(if signed then t[1..] else t)
    case None => None
    case Some(l) => Some(if t[0] == '-' then -LiteralValue(l) else LiteralValue(l))
  }

  /** `parseFloat(value) || 0`: NaN (and zero) become 0. */
  function OrZero(p: Option<real>): (x: real)
    ensures p == None ==> x == 0.0
    ensures p.Some? ==> x == p.value
  {
    match p
    case None => 0.0
    case Some(v) => v
  }

  lemma DigitIsNotSign(c: char)
    requires IsDigit(c)
    ensures !IsJsSpace(c) && c != '-' && c != '+' && c != '.'
  {
  }

  lemma {:induction false} LeadingDigitsAll(s: string)
    requires AllDigits(s)
    ensures LeadingDigits(s) == |s|
  {
    if s != [] { LeadingDigitsAll(s[1..]); }
  }

  /** The run of leading digits stops where the digits do. */
  lemma {:induction false} LeadingDigitsPrefix(a: string, rest: string)
    requires AllDigits(a) && (rest == [] || !IsDigit(rest[0]))
    ensures LeadingDigits(a + rest) == |a|
  {
    if a != [] {
      assert (a + rest)[1..] == a[1..] + rest;
      LeadingDigitsPrefix(a[1..], rest);
    } else {
      assert a + rest == rest;
    }
  }

  /** Digits, then text that is neither a digit nor a point: the literal is
      the digits with the exponent part the text starts with, if any. */
  lemma IntegerSplit(s: string, a: string, tail: string)
    requires s == a + tail && |a| >= 1 && AllDigits(a)
    requires tail == [] || (!IsDigit(tail[0]) && tail[0] != '.')
    ensures ScanDecimal(s) == Some(Literal(a, [], ExponentPart(tail)))
  {
    LeadingDigitsPrefix(a, tail);
    assert s[..|a|] == a && s[|a|..] == tail;
    assert tail[..0] == [] && tail[0..] == tail;
  }

  /** Digits a, a point, digits b and text that is no digit: the literal is
      a.b with the exponent part the text starts with, if any. */
  lemma PointSplit(s: string, a: string, b: string, tail: string)
    requires s == a + ("." + (b + tail)) && AllDigits(a) && AllDigits(b) && |a| + |b| >= 1
    requires tail == [] || !IsDigit(tail[0])
    ensures ScanDecimal(s) == Some(Literal(a, b, ExponentPart(tail)))
  {
    var t := b + tail;
    LeadingDigitsPrefix(a, "." + t);
    assert s[|a|] == '.';
    assert s[..|a|] == a && s[|a| + 1..] == t;
    LeadingDigitsPrefix(b, tail);
    assert t[..|b|] == b && t[|b|..] == tail;
  }

  /** A plain run of digits is a literal with no fraction and no exponent. */
  lemma ScanDigits(d: string)
    requires |d| >= 1 && AllDigits(d)
    ensures ScanDecimal(d) == Some(Literal(d, [], None))
  {
    assert d == d + [];
    IntegerSplit(d, d, []);
  }

  /** Text whose trimmed form starts with no sign is read as it stands. */
  lemma Unsigned(s: string, l: Literal)
    requires TrimStart(s) == s && s != [] && s[0] != '-' && s[0] != '+'
    requires ScanDecimal(s) == Some(l)
    ensures ParseFloat(s) == Some(LiteralValue(l))
  {
  }

  /** A minus sign at the head of the trimmed text negates what follows. */
  lemma MinusSign(s: string, l: Literal)
    requires TrimStart(s) == s && s != [] && s[0] == '-'
    requires ScanDecimal(s[1..]) == Some(l)
    ensures ParseFloat(s) == Some(-LiteralValue(l))
  {
  }

  lemma DigitsLiteralValue(d: string)
    requires |d| >= 1 && AllDigits(d)
    ensures LiteralValue(Literal(d, [], None)) == DigitsValue(d) as real
  {
    assert FractionValue([]) == 0.0;
  }

  /** Digits alone parse as their value. */
  lemma ParseFloatDigits(d: string)
    requires |d| >= 1 && AllDigits(d)
    ensures ParseFloat(d) == Some(DigitsValue(d) as real)
  {
    ScanDigits(d);
    DigitIsNotSign(d[0]);
    assert TrimStart(d) == d;
    Unsigned(d, Literal(d, [], None));
    DigitsLiteralValue(d);
  }

  /** A minus sign followed by digits parses as the negated value. */
  lemma ParseFloatNegative(s: string, d: string)
    requires |d| >= 1 && AllDigits(d) && s == "-" + d
    ensures ParseFloat(s) == Some(-(DigitsValue(d) as real))
  {
    MinusDigits(s, d);
    ScanDigits(d);
    MinusSign(s, Literal(d, [], None));
    DigitsLiteralValue(d);
  }

  lemma MinusDigits(s: string, d: string)
    requires s == "-" + d
    ensures TrimStart(s) == s && s[0] == '-' && s[1..] == d
  {
    assert !IsJsSpace('-');
  }

  /** parseFloat reads back what toString writes for an integer. */
  lemma ParseFloatIntToString(i: int)
    ensures ParseFloat(IntToString(i)) == Some(i as real)
  {
    if i < 0 {
      var d := NatToString(-i);
      ParseFloatNegative(IntToString(i), d);
      NatToStringValue(-i);
      assert -(DigitsValue(d) as real) == i as real;
    } else {
      ParseFloatDigits(NatToString(i));
      NatToStringValue(i);
    }
  }

  /** Leading white space does not change what parseFloat reads. */
  lemma ParseFloatSkipsSpace(s: string)
    requires s != [] && IsJsSpace(s[0])
    ensures ParseFloat(s) == ParseFloat(s[1..])
  {
  }

  /** An empty input box, and text whose first character is no white space,
      digit, sign or point (such as "abc"), reads as NaN. */
  lemma ParseFloatEmpty(s: string)
    requires s == [] || (!IsJsSpace(s[0]) && !IsDigit(s[0]) && s[0] != '+' && s[0] != '-' && s[0] != '.')
    ensures ParseFloat(s) == None
  {
  }

  /** The value of a two-digit string. */
  lemma TwoDigits(s: string)
    requires |s| == 2 && AllDigits(s)
    ensures DigitsValue(s) == 10 * DigitValue(s[0]) + DigitValue(s[1])
  {
    var p := s[..1];
    assert DigitsValue(p) == DigitValue(s[0]) by {
      assert p[..0] == [] && p[0] == s[0];
    }
    assert s[..|s| - 1] == p;
  }

  lemma FractionDigits()
    ensures DigitsValue("12") == 12 && FractionValue("50") == 0.5
    ensures DigitsValue("0") == 0 && FractionValue("25") == 0.25
  {
    TwoDigits("12");
    TwoDigits("50");
    TwoDigits("25");
    assert "0"[..0] == [];
    assert ScaleBy(50.0, -1) == 5.0 && ScaleBy(25.0, -1) == 2.5;
  }

  /** A fraction: "12.50" is 12.5. */
  lemma ParseFloatFraction()
    ensures ParseFloat("12.50") == Some(12.5)
  {
    assert ScanDecimal("12.50") == Some(Literal("12", "50", None)) by {
      assert ExponentPart([]) == None;
      assert "12.50" == "12" + ("." + ("50" + []));
      PointSplit("12.50", "12", "50", []);
    }
    FractionDigits();
    DigitIsNotSign('1');
    assert TrimStart("12.50") == "12.50";
    Unsigned("12.50", Literal("12", "50", None));
  }

  lemma ScanLeadingZero()
    ensures ScanDecimal("0.25") == Some(Literal("0", "25", None))
  {
    assert ExponentPart([]) == None;
    assert "0.25" == "0" + ("." + ("25" + []));
    PointSplit("0.25", "0", "25", []);
  }

  /** Leading blanks and a minus sign: " -0.25" is -0.25. */
  lemma ParseFloatBlankAndMinus()
    ensures ParseFloat(" -0.25") == Some(-0.25)
  {
    ScanLeadingZero();
    FractionDigits();
    assert !IsJsSpace('-');
    assert TrimStart("-0.25") == "-0.25";
    assert "-0.25"[1..] == "0.25";
    MinusSign("-0.25", Literal("0", "25", None));
    assert " -0.25"[1..] == "-0.25";
    ParseFloatSkipsSpace(" -0.25");
  }

  lemma ScanExponent()
    ensures ScanDecimal("1e3") == Some(Literal("1", [], Some(3)))
  {
    assert "1" + "e3" == "1e3";
    IntegerSplit("1e3", "1", "e3");
    assert "e3"[1..] == "3";
    LeadingDigitsAll("3");
    assert "3"[..1] == "3" && DigitsValue("3") == 3;
  }

  lemma ScanTrailingText()
    ensures ScanDecimal("7px") == Some(Literal("7", [], None))
  {
    assert "7" + "px" == "7px";
    IntegerSplit("7px", "7", "px");
  }

  /** An exponent scales the mantissa: "1e3" is 1000. */
  lemma ParseFloatExponent()
    ensures ParseFloat("1e3") == Some(1000.0)
  {
    ScanExponent();
    DigitIsNotSign('1');
    assert TrimStart("1e3") == "1e3";
    Unsigned("1e3", Literal("1", [], Some(3)));
    assert DigitsValue("1") == 1;
    assert FractionValue([]) == 0.0;
    assert ScaleBy(1.0, 3) == 1000.0;
  }

  /** Text after the number is ignored: "7px" is 7. */
  lemma ParseFloatTrailingText()
    ensures ParseFloat("7px") == Some(7.0)
  {
    ScanTrailingText();
    DigitIsNotSign('7');
    assert TrimStart("7px") == "7px";
    Unsigned("7px", Literal("7", [], None));
    assert DigitsValue("7") == 7;
    assert FractionValue([]) == 0.0;
  }
}
