/**
 * PHP numbers as the library uses them. A PHP float is modelled as an exact
 * decimal `units / 10^scale`; integer values have scale 0. The conversions
 * the library depends on are written out: `(string)$float`, `number_format($x,
 * 2, '.', '')`, `round($x, 2)` and the recognition of numeric strings.
 */
module PhpNumbers {
  import opened Wrappers
  import opened PhpStrings

  /** The number `units / 10^scale`. */
  datatype Decimal = Decimal(units: int, scale: nat)

  function Pow10(n: nat): (r: nat)
    ensures r >= 1
  {
    if n == 0 then 1 else 10 * Pow10(n - 1)
  }

  function Abs(i: int): nat { if i < 0 then -i else i }

  function Int(i: int): Decimal { Decimal(i, 0) }

  /** The exact value, for stating arithmetic facts. */
  ghost function RealOf(d: Decimal): real
  {
    d.units as real / Pow10(d.scale) as real
  }

  predicate IsZero(d: Decimal) { d.units == 0 }
  predicate IsNegative(d: Decimal) { d.units < 0 }

  /** Unary minus. */
  function Neg(d: Decimal): (r: Decimal)
    ensures RealOf(r) == -RealOf(d)
  {
    Decimal(-d.units, d.scale)
  }

  /** Multiplication (exact). */
  function Mul(a: Decimal, b: Decimal): Decimal
  {
    Decimal(a.units * b.units, a.scale + b.scale)
  }

  /** Division by two, exact in decimal as it is in binary floating point. */
  function Half(d: Decimal): (r: Decimal)
    ensures RealOf(r) + RealOf(r) == RealOf(d)
  {
    var p := Pow10(d.scale) as real;
    assert Pow10(d.scale + 1) as real == 10.0 * p;
    assert (d.units * 5) as real / (10.0 * p) == d.units as real / (2.0 * p);
    Decimal(d.units * 5, d.scale + 1)
  }

  function DigitChar(d: nat): (c: char)
    requires d < 10
    ensures IsDigit(c)
  {
    ('0' as int + d) as char
  }

  /** The value of a digit character (zero for any other character). */
  function DigitValue(c: char): nat
  {
    if IsDigit(c) then c as int - '0' as int else 0
  }

  predicate AllDigits(s: string) { forall i :: 0 <= i < |s| ==> IsDigit(s[i]) }

  /** Decimal digits of a natural number, without leading zeros. */
  function NatText(n: nat): (r: string)
    ensures |r| >= 1 && AllDigits(r)
  {
    if n < 10 then [DigitChar(n)] else NatText(n / 10) + [DigitChar(n % 10)]
  }

  /** The value of a digit string. */
  function DigitsValue(s: string): nat
  {
    if s == [] then 0 else DigitsValue(s[..|s| - 1]) * 10 + DigitValue(s[|s| - 1])
  }

  /** `(string)$int`. */
  function IntText(i: int): string
  {
    if i < 0 then "-" + NatText(-i) else NatText(i)
  }

  /** Left-pads a digit string with zeros to `width` characters. */
  function PadZeros(s: string, width: nat): (r: string)
    ensures |r| == if |s| < width then width else |s|
    ensures AllDigits(s) ==> AllDigits(r)
    decreases width - |s|
  {
    if |s| < width then PadZeros("0" + s, width) else s
  }

  /** Drops trailing fractional zeros: the shortest decimal with the same value. */
  function Normalize(d: Decimal): (r: Decimal)
    decreases d.scale
  {
    if d.scale > 0 && d.units % 10 == 0 then Normalize(Decimal(d.units / 10, d.scale - 1)) else d
  }

  /**
   * `(string)$float` for a value PHP writes without exponent: integral values
   * are written without a fraction, others with exactly their significant
   * fractional digits.
   */
  function FloatText(d: Decimal): string
  {
    var n := Normalize(d);
    var sign := if n.units < 0 then "-" else "";
    if n.scale == 0 then sign + NatText(Abs(n.units))
    else sign + NatText(Quot(Abs(n.units), n.scale)) + "." + PadZeros(NatText(Rem(Abs(n.units), n.scale)), n.scale)
  }

  /** `a` with its last `k` decimal digits dropped. */
  function Quot(a: nat, k: nat): nat
  {
    if k == 0 then a else Quot(a / 10, k - 1)
  }

  /** The last `k` decimal digits of `a`. */
  function Rem(a: nat, k: nat): nat
  {
    if k == 0 then 0 else Rem(a / 10, k - 1) * 10 + a % 10
  }

  lemma {:induction false} QuotRem(a: nat, k: nat)
    ensures Quot(a, k) * Pow10(k) + Rem(a, k) == a
    ensures Rem(a, k) < Pow10(k)
  {
    if k > 0 {
      QuotRem(a / 10, k - 1);
      var q, r, p := Quot(a / 10, k - 1), Rem(a / 10, k - 1), Pow10(k - 1);
      assert q * p + r == a / 10;
      assert Pow10(k) == 10 * p;
      calc {
        Quot(a, k) * Pow10(k) + Rem(a, k);
        q * (10 * p) + r * 10 + a % 10;
        { assert q * (10 * p) == (q * p) * 10; }
        (q * p + r) * 10 + a % 10;
        (a / 10) * 10 + a % 10;
        a;
      }
    }
  }

  /** `(int)$x`: the integer part, truncated toward zero. */
  function Truncate(d: Decimal): (r: int)
    ensures d.scale == 0 ==> r == d.units
    ensures d.units >= 0 ==> r >= 0
    ensures d.units < 0 ==> r <= 0
  {
    var q: int := Quot(Abs(d.units), d.scale);
    if d.units < 0 then -q else q
  }

  /** `round($x, 2)` in hundredths: halves are rounded away from zero. */
  function Round2(d: Decimal): int
  {
    if d.scale <= 2 then
      Scaled(d.units, 2 - d.scale)
    else
      var a := Abs(d.units);
      var k := d.scale - 2;
      var q := Quot(a, k) + (if 2 * Rem(a, k) >= Pow10(k) then 1 else 0);
      if d.units < 0 then -q else q
  }

  /** `u * 10^k`. */
  function Scaled(u: int, k: nat): int
  {
    if k == 0 then u else 10 * Scaled(u, k - 1)
  }

  /** `number_format($x, 2, '.', '')`: two decimals, no grouping, never "-0.00". */
  function FormatAmount(d: Decimal): string
  {
    var c := Round2(d);
    (if c < 0 then "-" else "") + NatText(Quot(Abs(c), 2)) + "." + PadZeros(NatText(Rem(Abs(c), 2)), 2)
  }

  /** The position of the first '.', or |s| when there is none. */
  function DotIndex(s: string): (k: nat)
    ensures k <= |s|
    ensures forall i :: 0 <= i < k ==> s[i] != '.'
    ensures k < |s| ==> s[k] == '.'
  {
    if s == [] then 0 else if s[0] == '.' then 0 else 1 + DotIndex(s[1..])
  }

  /** Digits, optionally with a fraction: "12", "12.5", "12.", ".5". */
  function ParseUnsigned(s: string): Option<Decimal>
  {
    var k := DotIndex(s);
    var whole := s[..k];
    var frac := if k < |s| then s[k + 1..] else "";
    if AllDigits(whole) && AllDigits(frac) && |whole| + |frac| > 0 then
      Some(Decimal(DigitsValue(whole + frac), |frac|))
    else None
  }

  /** The white space PHP allows around a numeric string: space, \t, \n, \r, \v and \f. */
  predicate IsNumericSpace(c: char)
  {
    c == ' ' || c == '\t' || c == '\n' || c == '\r' || c as int == 0x0B || c as int == 0x0C
  }

  /** Drops the leading white space. */
  function TrimLeading(s: string): (r: string)
    ensures |r| <= |s| && r == s[|s| - |r|..]
    ensures forall i :: 0 <= i < |s| - |r| ==> IsNumericSpace(s[i])
    ensures |r| > 0 ==> !IsNumericSpace(r[0])
  {
    if |s| > 0 && IsNumericSpace(s[0]) then TrimLeading(s[1..]) else s
  }

  /** Drops the trailing white space. */
  function TrimTrailing(s: string): (r: string)
    ensures |r| <= |s| && r == s[..|r|]
    ensures forall i :: |r| <= i < |s| ==> IsNumericSpace(s[i])
    ensures |r| > 0 ==> !IsNumericSpace(r[|r| - 1])
  {
    if |s| > 0 && IsNumericSpace(s[|s| - 1]) then TrimTrailing(s[..|s| - 1]) else s
  }

  /** The position of the first 'e' or 'E', or |s| when there is none. */
  function ExponentIndex(s: string): (k: nat)
    ensures k <= |s|
    ensures forall i :: 0 <= i < k ==> s[i] != 'e' && s[i] != 'E'
    ensures k < |s| ==> s[k] == 'e' || s[k] == 'E'
  {
    if s == [] then 0 else if s[0] == 'e' || s[0] == 'E' then 0 else 1 + ExponentIndex(s[1..])
  }

  /** The exponent after the 'e': an optional sign and at least one digit. */
  function ParseExponent(s: string): Option<int>
  {
    var digits := if |s| > 0 && (s[0] == '-' || s[0] == '+') then s[1..] else s;
    if |digits| > 0 && AllDigits(digits) then
      Some(if |s| > 0 && s[0] == '-' then -(DigitsValue(digits) as int) else DigitsValue(digits))
    else None
  }

  /** A plain numeral, optionally followed by an exponent: "12.5", "1e3", ".5E-2". */
  function ParseMantissaExponent(s: string): Option<Decimal>
  {
    var k := ExponentIndex(s);
    match ParseUnsigned(s[..k])
    case None => None
    case Some(m) =>
      if k == |s| then Some(m)
      else
        match ParseExponent(s[k + 1..])
        case None => None
        case Some(e) => Some(if e >= 0 then Decimal(m.units * Pow10(e), m.scale) else Decimal(m.units, m.scale + -e))
  }

  /** An optional sign directly followed by a numeral. */
  function ParseSigned(s: string): Option<Decimal>
  {
    if |s| > 0 && (s[0] == '-' || s[0] == '+') then
      match ParseMantissaExponent(s[1..])
      case None => None
      case Some(d) => Some(if s[0] == '-' then Neg(d) else d)
    else ParseMantissaExponent(s)
  }

  /**
   * The numeric strings of `is_numeric` and of PHP's string-to-float
   * coercion: white space, an optional sign, a decimal numeral with an
   * optional exponent, white space.
   */
  function ParseNumeric(s: string): Option<Decimal>
  {
    ParseSigned(TrimTrailing(TrimLeading(s)))
  }

  predicate IsNumericString(s: string) { ParseNumeric(s).Some? }

  /** Text that neither starts nor ends with white space is parsed as it is. */
  lemma Untrimmed(t: string)
    requires |t| > 0 ==> !IsNumericSpace(t[0]) && !IsNumericSpace(t[|t| - 1])
    ensures ParseNumeric(t) == ParseSigned(t)
  {
    assert TrimLeading(t) == t;
    assert TrimTrailing(t) == t;
  }

  /** A numeral without 'e' or 'E' has no exponent part. */
  lemma NoExponent(u: string)
    requires forall i :: 0 <= i < |u| ==> u[i] != 'e' && u[i] != 'E'
    ensures ParseMantissaExponent(u) == ParseUnsigned(u)
  {
    assert ExponentIndex(u) == |u|;
    assert u[..|u|] == u;
  }

  /** A string that starts with anything but white space, a digit, a sign or a point is not numeric. */
  lemma NonNumericLead(s: string)
    requires |s| > 0 && !IsNumericSpace(s[0]) && !IsDigit(s[0]) && s[0] != '+' && s[0] != '-' && s[0] != '.'
    ensures !IsNumericString(s)
  {
    var t := TrimTrailing(TrimLeading(s));
    if |t| > 0 {
      assert t[0] == s[0];
      var k := ExponentIndex(t);
      if k > 0 {
        var w := t[..k];
        assert w[0] == s[0];
        var d := DotIndex(w);
        assert d > 0;
        assert w[..d][0] == s[0];
      }
    }
  }

  /** White space around a numeral and an exponent are part of PHP's numeric strings. */
  lemma NumericStringForms()
    ensures ParseNumeric(" 5") == Some(Decimal(5, 0)) && ParseNumeric("5 ") == Some(Decimal(5, 0))
    ensures ParseNumeric("1e3") == Some(Decimal(1000, 0)) && ParseNumeric("-2.5E-1") == Some(Decimal(-25, 2))
    ensures ParseNumeric("12abc") == None && ParseNumeric(" ") == None && ParseNumeric("- 5") == None
  {
    PaddedFive();
    ExponentForms();
    NotNumerals();
  }

  lemma DigitsFive()
    ensures ParseUnsigned("5") == Some(Decimal(5, 0))
  {
    assert DotIndex("5") == 1 && "5"[..1] == "5";
    assert "5" + "" == "5";
    assert DigitsValue("5") == 5 by { assert "5"[..0] == []; }
  }

  lemma PaddedFive()
    ensures ParseNumeric(" 5") == Some(Decimal(5, 0)) && ParseNumeric("5 ") == Some(Decimal(5, 0))
  {
    assert TrimLeading(" 5") == "5" by { assert " 5"[1..] == "5"; }
    assert TrimTrailing("5") == "5";
    assert TrimLeading("5 ") == "5 ";
    assert TrimTrailing("5 ") == "5" by { assert "5 "[..1] == "5"; }
    NoExponent("5");
    DigitsFive();
  }

  lemma ExponentForms()
    ensures ParseNumeric("1e3") == Some(Decimal(1000, 0)) && ParseNumeric("-2.5E-1") == Some(Decimal(-25, 2))
  {
    OneEThree();
    NegativeExponent();
  }

  lemma OneEThree()
    ensures ParseNumeric("1e3") == Some(Decimal(1000, 0))
  {
    hide ParseUnsigned, ParseExponent, ParseMantissaExponent, DigitsValue, TrimLeading, TrimTrailing, ExponentIndex, DotIndex;
    Untrimmed("1e3");
    assert "1e3" == "1" + "e" + "3";
    OneAndThree();
    NoPoint("1");
    WithExponent("1", "e", "3");
    assert Pow10(3) == 1000;
  }

  lemma OneAndThree()
    ensures AllDigits("1") && DigitsValue("1") == 1 && ParseExponent("3") == Some(3)
  {
    assert DigitsValue("1") == 1 by { assert "1"[..0] == []; }
    assert DigitsValue("3") == 3 by { assert "3"[..0] == []; }
  }

  lemma NegativeExponent()
    ensures ParseNumeric("-2.5E-1") == Some(Decimal(-25, 2))
  {
    hide ParseUnsigned, ParseExponent, ParseMantissaExponent, DigitsValue;
    Untrimmed("-2.5E-1");
    var u := "2.5E-1";
    assert "-2.5E-1"[1..] == u && "-2.5E-1"[0] == '-';
    assert u == "2" + "." + "5" + "E" + "-1";
    PointParse("2", "5");
    TwentyFive();
    MinusOne();
    WithExponent("2" + "." + "5", "E", "-1");
  }

  /** A mantissa, an exponent mark and an exponent. */
  lemma WithExponent(m: string, x: string, e: string)
    requires x == "e" || x == "E"
    requires forall i :: 0 <= i < |m| ==> m[i] != 'e' && m[i] != 'E'
    requires ParseUnsigned(m).Some? && ParseExponent(e).Some?
    ensures ParseMantissaExponent(m + x + e) ==
      var d, n := ParseUnsigned(m).value, ParseExponent(e).value;
      Some(if n >= 0 then Decimal(d.units * Pow10(n), d.scale) else Decimal(d.units, d.scale + -n))
  {
    hide ParseUnsigned, ParseExponent;
    var s := m + x + e;
    assert forall i :: 0 <= i < |m| ==> s[i] == m[i];
    assert s[|m|] == x[0];
    assert ExponentIndex(s) == |m|;
    assert s[..|m|] == m && s[|m| + 1..] == e;
  }

  lemma TwentyFive()
    ensures DigitsValue("2" + "5") == 25
  {
    assert "2" + "5" == "25" && "25"[..1] == "2" && "2"[..0] == [];
  }

  lemma MinusOne()
    ensures ParseExponent("-1") == Some(-1)
  {
    assert "-1"[1..] == "1";
    assert DigitsValue("1") == 1 by { assert "1"[..0] == []; }
  }

  /** Digits, a point and digits. */
  lemma PointParse(w: string, f: string)
    requires AllDigits(w) && AllDigits(f) && |w| + |f| > 0
    ensures ParseUnsigned(w + "." + f) == Some(Decimal(DigitsValue(w + f), |f|))
  {
    var s := w + "." + f;
    assert forall i :: 0 <= i < |w| ==> s[i] == w[i];
    assert s[|w|] == '.';
    assert DotIndex(s) == |w|;
    assert s[..|w|] == w && s[|w| + 1..] == f;
  }

  /** A numeral of digits and letters other than 'e', with no point, parses exactly when it is all digits. */
  lemma PlainParse(s: string)
    requires |s| > 0 && IsDigit(s[0]) && !IsNumericSpace(s[|s| - 1])
    requires forall i :: 0 <= i < |s| ==> s[i] != '.' && s[i] != 'e' && s[i] != 'E'
    ensures ParseNumeric(s) == if AllDigits(s) then Some(Decimal(DigitsValue(s), 0)) else None
  {
    hide ParseNumeric, ParseUnsigned, ParseMantissaExponent, TrimLeading, TrimTrailing, ExponentIndex, DotIndex, DigitsValue, AllDigits;
    Untrimmed(s);
    assert ParseSigned(s) == ParseMantissaExponent(s);
    NoExponent(s);
    NoPoint(s);
  }

  /** Without a point the whole text is the integer part. */
  lemma NoPoint(s: string)
    requires forall i :: 0 <= i < |s| ==> s[i] != '.'
    ensures ParseUnsigned(s) == if AllDigits(s) && |s| > 0 then Some(Decimal(DigitsValue(s), 0)) else None
  {
    hide DigitsValue;
    assert DotIndex(s) == |s|;
    assert s[..|s|] == s && s + "" == s;
  }

  lemma NotNumerals()
    ensures ParseNumeric("12abc") == None && ParseNumeric(" ") == None && ParseNumeric("- 5") == None
  {
    hide *;
    TrailingLetters();
    Blank();
    SpaceAfterSign();
  }

  lemma Blank()
    ensures ParseNumeric(" ") == None
  {
    assert TrimLeading(" ") == "" by { assert " "[1..] == ""; }
    assert TrimTrailing("") == "";
  }

  lemma TrailingLetters()
    ensures ParseNumeric("12abc") == None
  {
    var s := "12abc";
    assert s[0] == '1' && s[1] == '2' && s[2] == 'a' && s[3] == 'b' && s[4] == 'c';
    PlainParse(s);
    assert !IsDigit(s[2]);
  }

  lemma SpaceAfterSign()
    ensures ParseNumeric("- 5") == None
  {
    Untrimmed("- 5");
    assert "- 5"[1..] == " 5";
    NoExponent(" 5");
    assert DotIndex(" 5") == 2 && " 5"[..2] == " 5";
    assert !IsDigit(" 5"[0]);
  }

  // ---------------------------------------------------------------------
  // Lemmas: the text forms denote the values they write out.

  lemma AllDigitsAppend(x: string, y: string)
    requires AllDigits(x) && AllDigits(y)
    ensures AllDigits(x + y)
  {
    forall i | 0 <= i < |x + y| ensures IsDigit((x + y)[i]) {
      if i < |x| { assert (x + y)[i] == x[i]; } else { assert (x + y)[i] == y[i - |x|]; }
    }
  }

  lemma DigitsValueSnoc(s: string, c: char)
    ensures DigitsValue(s + [c]) == DigitsValue(s) * 10 + DigitValue(c)
  {
    var t := s + [c];
    assert t[..|t| - 1] == s;
  }

  lemma ShiftDigit(dx: nat, p: nat, dy: nat, c: nat)
    ensures (dx * p + dy) * 10 + c == dx * (10 * p) + (dy * 10 + c)
  {
  }

  lemma {:induction false} DigitsValueAppend(x: string, y: string)
    ensures DigitsValue(x + y) == DigitsValue(x) * Pow10(|y|) + DigitsValue(y)
    decreases |y|
  {
    if y == [] {
      assert x + y == x;
    } else {
      var y', c := y[..|y| - 1], y[|y| - 1];
      assert y == y' + [c];
      DigitsValueAppend(x, y');
      assert x + y == (x + y') + [c];
      DigitsValueSnoc(x + y', c);
      DigitsValueSnoc(y', c);
      ShiftDigit(DigitsValue(x), Pow10(|y'|), DigitsValue(y'), DigitValue(c));
    }
  }

  /** Reading back the digits of a number gives the number. */
  lemma {:induction false} DigitsValueNatText(n: nat)
    ensures DigitsValue(NatText(n)) == n
  {
    if n >= 10 {
      DigitsValueNatText(n / 10);
      var t := NatText(n / 10) + [DigitChar(n % 10)];
      assert t[..|t| - 1] == NatText(n / 10);
    }
  }

  lemma {:induction false} NatTextShort(n: nat, k: nat)
    requires k >= 1 && n < Pow10(k)
    ensures |NatText(n)| <= k
  {
    if n >= 10 {
      assert Pow10(1) == 10;
      assert k != 1;
      assert Pow10(k) == 10 * Pow10(k - 1);
      NatTextShort(n / 10, k - 1);
    }
  }

  lemma {:induction false} PadZerosValue(s: string, width: nat)
    ensures DigitsValue(PadZeros(s, width)) == DigitsValue(s)
    decreases width - |s|
  {
    if |s| < width {
      DigitsValueAppend("0", s);
      assert DigitsValue("0") == 0 by {
        assert "0"[..0] == [];
      }
      PadZerosValue("0" + s, width);
    }
  }

  lemma NatTextNotSign(n: nat)
    ensures NatText(n)[0] != '-' && NatText(n)[0] != '+'
  {
    assert IsDigit(NatText(n)[0]);
  }

  /** Parsing an unsigned plain numeral gives the number it spells. */
  lemma ParseWhole(a: nat)
    ensures ParseUnsigned(NatText(a)) == Some(Decimal(a, 0))
  {
    var body := NatText(a);
    assert forall i :: 0 <= i < |body| ==> body[i] != '.' by {
      assert AllDigits(body);
    }
    assert DotIndex(body) == |body|;
    assert body[..|body|] == body;
    assert body + "" == body;
    DigitsValueNatText(a);
  }

  /** Parsing `whole.frac` with a fraction of exactly `k` digits. */
  lemma ParseFraction(a: nat, k: nat)
    requires k >= 1
    ensures ParseUnsigned(NatText(Quot(a, k)) + "." + PadZeros(NatText(Rem(a, k)), k)) == Some(Decimal(a, k))
  {
    var whole := NatText(Quot(a, k));
    var frac := PadZeros(NatText(Rem(a, k)), k);
    QuotRem(a, k);
    NatTextShort(Rem(a, k), k);
    assert |frac| == k;
    var body := whole + "." + frac;
    assert forall i :: 0 <= i < |whole| ==> body[i] != '.' by {
      assert AllDigits(whole);
      assert forall i :: 0 <= i < |whole| ==> body[i] == whole[i];
    }
    assert body[|whole|] == '.';
    assert DotIndex(body) == |whole|;
    assert body[..|whole|] == whole;
    assert body[|whole| + 1..] == frac;
    DigitsValueAppend(whole, frac);
    DigitsValueNatText(Quot(a, k));
    PadZerosValue(NatText(Rem(a, k)), k);
    DigitsValueNatText(Rem(a, k));
  }

  /** The unsigned text of a normalized decimal: what follows the sign. */
  function MagnitudeText(n: Decimal): string
  {
    var a := Abs(n.units);
    if n.scale == 0 then NatText(a)
    else NatText(Quot(a, n.scale)) + "." + PadZeros(NatText(Rem(a, n.scale)), n.scale)
  }

  lemma MagnitudeTextParses(n: Decimal)
    ensures |MagnitudeText(n)| > 0 && IsDigit(MagnitudeText(n)[0])
    ensures ParseUnsigned(MagnitudeText(n)) == Some(Decimal(Abs(n.units), n.scale))
  {
    var a := Abs(n.units);
    if n.scale == 0 {
      ParseWhole(a);
    } else {
      ParseFraction(a, n.scale);
      var w := NatText(Quot(a, n.scale));
      assert MagnitudeText(n)[0] == w[0];
    }
  }

  lemma FloatTextIsSignedMagnitude(d: Decimal)
    ensures FloatText(d) == (if Normalize(d).units < 0 then "-" else "") + MagnitudeText(Normalize(d))
  {
  }

  /**
   * Parsing the text PHP writes for a float gives back that float: the
   * textual forms used in the documents lose nothing.
   */
  lemma FloatTextParses(d: Decimal)
    ensures ParseNumeric(FloatText(d)) == Some(Normalize(d))
  {
    FloatTextIsSignedMagnitude(d);
    SignedMagnitudeParses(Normalize(d));
  }

  /** The text of a float is non-empty and uses only digits, '-' and '.'. */
  lemma FloatTextChars(d: Decimal)
    ensures |FloatText(d)| > 0
    ensures forall i :: 0 <= i < |FloatText(d)| ==> IsDigit(FloatText(d)[i]) || FloatText(d)[i] in "-."
  {
    var n := Normalize(d);
    FloatTextIsSignedMagnitude(d);
    MagnitudeTextChars(n);
    var sign, body := (if n.units < 0 then "-" else ""), MagnitudeText(n);
    var t := sign + body;
    forall i | 0 <= i < |t| ensures IsDigit(t[i]) || t[i] in "-." {
      if i >= |sign| { assert t[i] == body[i - |sign|]; }
    }
  }

  /** A sign for negative values followed by the magnitude's text reads back as the value. */
  lemma SignedMagnitudeParses(n: Decimal)
    ensures ParseNumeric((if n.units < 0 then "-" else "") + MagnitudeText(n)) == Some(n)
  {
    hide ParseNumeric, ParseMantissaExponent, ParseUnsigned, MagnitudeText, TrimLeading, TrimTrailing, ExponentIndex, DotIndex, DigitsValue, AllDigits;
    var body := MagnitudeText(n);
    MagnitudeTextParses(n);
    MagnitudeTextChars(n);
    NoExponent(body);
    var t := (if n.units < 0 then "-" else "") + body;
    assert body[0] != '-' && body[0] != '+';
    if n.units < 0 {
      assert t[0] == '-' && t[|t| - 1] == body[|body| - 1];
      Untrimmed(t);
      assert t[1..] == body;
      assert Neg(Decimal(Abs(n.units), n.scale)) == n;
    } else {
      assert t == body;
      Untrimmed(t);
      assert Decimal(Abs(n.units), n.scale) == n;
    }
  }

  /** The text of a magnitude is digits and at most a point, and ends in a digit. */
  lemma MagnitudeTextChars(n: Decimal)
    ensures |MagnitudeText(n)| > 0 && IsDigit(MagnitudeText(n)[|MagnitudeText(n)| - 1])
    ensures forall i :: 0 <= i < |MagnitudeText(n)| ==> IsDigit(MagnitudeText(n)[i]) || MagnitudeText(n)[i] == '.'
  {
    var a := Abs(n.units);
    if n.scale > 0 {
      var w, f := NatText(Quot(a, n.scale)), PadZeros(NatText(Rem(a, n.scale)), n.scale);
      assert |f| >= 1 && AllDigits(f);
      var m := w + "." + f;
      assert m[|m| - 1] == f[|f| - 1];
      forall i | 0 <= i < |m| ensures IsDigit(m[i]) || m[i] == '.' {
        if i < |w| { assert m[i] == w[i]; } else if i > |w| { assert m[i] == f[i - |w| - 1]; }
      }
    }
  }

  lemma {:induction false} QuotRemZero(k: nat)
    ensures Quot(0, k) == 0 && Rem(0, k) == 0
  {
    if k > 0 { QuotRemZero(k - 1); }
  }

  lemma {:induction false} ScaledNeg(u: int, k: nat)
    ensures Scaled(-u, k) == -Scaled(u, k)
  {
    if k > 0 { ScaledNeg(u, k - 1); }
  }

  /** Rounding commutes with negation: halves round away from zero on both sides. */
  lemma Round2Neg(d: Decimal)
    ensures Round2(Neg(d)) == -Round2(d)
  {
    if d.scale <= 2 {
      ScaledNeg(d.units, 2 - d.scale);
    } else {
      assert Abs(-d.units) == Abs(d.units);
      QuotRemZero(d.scale - 2);
    }
  }

  lemma {:induction false} Pow10Add(m: nat, n: nat)
    ensures Pow10(m + n) == Pow10(m) * Pow10(n)
  {
    if m > 0 {
      Pow10Add(m - 1, n);
      assert Pow10(m + n) == 10 * Pow10(m - 1 + n);
    }
  }

  lemma {:induction false} ScaledIsProduct(u: int, k: nat)
    ensures Scaled(u, k) == u * Pow10(k)
  {
    if k > 0 {
      ScaledIsProduct(u, k - 1);
      assert 10 * (u * Pow10(k - 1)) == u * (10 * Pow10(k - 1));
    }
  }

  /**
   * `round(x, 2)` is a nearest number of hundredths: it is off from `x` by at
   * most half a hundredth (in units of the input's last decimal).
   */
  lemma Round2Nearest(d: Decimal)
    ensures 2 * Abs(Round2(d) * Pow10(d.scale) - 100 * d.units) <= Pow10(d.scale)
  {
    hide Round2, Quot, Rem, Scaled;
    if d.scale <= 2 {
      Round2Exact(d);
    } else {
      var k := d.scale - 2;
      var p := Pow10(k);
      var e := Round2(d) * p - d.units;
      Round2Off(d);
      Pow10Add(2, k);
      assert Pow10(2) == 100;
      assert Pow10(d.scale) == 100 * p;
      assert Round2(d) * (100 * p) == 100 * (Round2(d) * p);
      assert Round2(d) * Pow10(d.scale) - 100 * d.units == 100 * e;
    }
  }

  /** With at most two decimals nothing is rounded. */
  lemma Round2Exact(d: Decimal)
    requires d.scale <= 2
    ensures Round2(d) * Pow10(d.scale) == 100 * d.units
  {
    var m := 2 - d.scale;
    ScaledIsProduct(d.units, m);
    Pow10Add(m, d.scale);
    assert Pow10(2) == 100;
    assert Round2(d) * Pow10(d.scale) == d.units * (Pow10(m) * Pow10(d.scale));
  }

  /** Beyond two decimals, the hundredths are off by at most half of the dropped digits' range. */
  lemma Round2Off(d: Decimal)
    requires d.scale > 2
    ensures 2 * Abs(Round2(d) * Pow10(d.scale - 2) - d.units) <= Pow10(d.scale - 2)
  {
    hide Quot, Rem, Pow10, Scaled;
    var k := d.scale - 2;
    var a, p := Abs(d.units), Pow10(k);
    var q := Quot(a, k) + (if 2 * Rem(a, k) >= p then 1 else 0);
    NearestQuotient(a, k);
    assert Round2(d) == (if d.units < 0 then -q else q);
    if d.units < 0 {
      assert (-q) * p - d.units == -(q * p - a);
    } else {
      assert q * p - d.units == q * p - a;
    }
  }

  lemma NearestQuotient(a: nat, k: nat)
    ensures var p := Pow10(k);
      var q := Quot(a, k) + (if 2 * Rem(a, k) >= p then 1 else 0);
      2 * Abs(q * p - a) <= p
  {
    var p := Pow10(k);
    QuotRem(a, k);
    var qq, r := Quot(a, k), Rem(a, k);
    if 2 * r >= p {
      assert (qq + 1) * p - a == p - r;
    } else {
      assert qq * p - a == -r;
    }
  }

  /** The text `number_format` writes for an amount is a numeric string whose value is the rounded amount. */
  lemma FormatAmountParses(d: Decimal)
    ensures ParseNumeric(FormatAmount(d)) == Some(Decimal(Round2(d), 2))
  {
    var c := Round2(d);
    var n := Decimal(c, 2);
    assert FormatAmount(d) == (if n.units < 0 then "-" else "") + MagnitudeText(n);
    SignedMagnitudeParses(n);
  }

  /** `number_format` of a negated amount is the same digits with a minus sign. */
  lemma FormatAmountNeg(d: Decimal)
    requires Round2(d) > 0
    ensures FormatAmount(Neg(d)) == "-" + FormatAmount(d)
  {
    Round2Neg(d);
    assert Abs(-Round2(d)) == Abs(Round2(d));
  }
}
