/**
 * The part of JavaScript number semantics the application relies on.
 * Money is kept in integer cents (every money column is numeric(10,2));
 * NaN is kept explicitly because parseFloat yields it for unparsable text
 * and it propagates through arithmetic, comparisons and toFixed.
 */
module Numbers {

  /** A JavaScript number as this application sees it: a finite amount in cents, or NaN. */
  datatype Num = Finite(cents: int) | NaN

  /** `a + b`: NaN if either side is NaN. */
  function Add(a: Num, b: Num): (r: Num)
    ensures r.Finite? <==> a.Finite? && b.Finite?
    ensures r.Finite? ==> r.cents - b.cents == a.cents
  {
    if a.Finite? && b.Finite? then Finite(a.cents + b.cents) else NaN
  }

  /** `a - b`: NaN if either side is NaN. */
  function Sub(a: Num, b: Num): (r: Num)
    ensures r.Finite? <==> a.Finite? && b.Finite?
    ensures r.Finite? ==> r.cents + b.cents == a.cents
  {
    if a.Finite? && b.Finite? then Finite(a.cents - b.cents) else NaN
  }

  /** `a >= b`: every comparison with NaN is false. */
  predicate Ge(a: Num, b: Num) {
    a.Finite? && b.Finite? && a.cents >= b.cents
  }

  /** `n || 0`: NaN (and 0) are falsy, so the result is always a finite amount. */
  function OrZero(n: Num): (r: int)
    ensures n.Finite? ==> r == n.cents
    ensures n.NaN? ==> r == 0
  {
    match n
    case Finite(c) => c
    case NaN => 0
  }

  lemma {:induction false} AddAssociative(a: Num, b: Num, c: Num)
    ensures Add(Add(a, b), c) == Add(a, Add(b, c))
  {
    if a.Finite? && b.Finite? && c.Finite? {
      assert Add(a, b).cents + c.cents == a.cents + Add(b, c).cents;
    }
  }

  // ---------------------------------------------------------------------
  // Decimal digits

  predicate IsDigit(c: char) {
    '0' <= c <= '9'
  }

  predicate AllDigits(s: string) {
    forall i :: 0 <= i < |s| ==> IsDigit(s[i])
  }

  function DigitValue(c: char): (d: nat)
    requires IsDigit(c)
    ensures d < 10
  {
    c as int - '0' as int
  }

  function DigitChar(d: nat): (c: char)
    requires d < 10
    ensures IsDigit(c) && DigitValue(c) == d
  {
    ('0' as int + d) as char
  }

  /** The value of a string of decimal digits, most significant first. */
  function DigitsValue(s: string): nat
    requires AllDigits(s)
  {
    if s == [] then 0 else DigitsValue(s[..|s| - 1]) * 10 + DigitValue(s[|s| - 1])
  }

  /** The shortest decimal representation of `n` (as `String(n)` writes it). */
  function NatToDigits(n: nat): (s: string)
    ensures AllDigits(s) && |s| >= 1
    ensures |s| > 1 ==> s[0] != '0'
  {
    if n < 10 then [DigitChar(n)] else NatToDigits(n / 10) + [DigitChar(n % 10)]
  }

  lemma {:induction false} NatToDigitsValue(n: nat)
    ensures DigitsValue(NatToDigits(n)) == n
  {
    if n >= 10 {
      var s := NatToDigits(n);
      NatToDigitsValue(n / 10);
      assert s[..|s| - 1] == NatToDigits(n / 10);
    }
  }

  /** Numbers below `10^k` are written with at most `k` digits. */
  lemma {:induction false} NatToDigitsLength(n: nat, k: nat)
    requires k >= 1 && n < Pow10(k)
    ensures |NatToDigits(n)| <= k
  {
    if n >= 10 {
      NatToDigitsLength(n / 10, k - 1);
    }
  }

  function Pow10(k: nat): (p: nat)
    ensures p >= 1
  {
    if k == 0 then 1 else 10 * Pow10(k - 1)
  }

  // ---------------------------------------------------------------------
  // parseFloat, Number and toFixed(2)

  /** Index of the first '.', or |s| if there is none. */
  function IndexOfDot(s: string): (k: nat)
    ensures k <= |s|
    ensures k < |s| ==> s[k] == '.'
    ensures forall i :: 0 <= i < k ==> s[i] != '.'
  {
    if s == [] then 0 else if s[0] == '.' then 0 else 1 + IndexOfDot(s[1..])
  }

  /** The cents denoted by at most two fraction digits ("" is 0, "5" is 50, "05" is 5). */
  function FractionCents(f: string): (c: nat)
    requires AllDigits(f) && |f| <= 2
    ensures c < 100
  {
    if |f| == 0 then 0
    else if |f| == 1 then DigitValue(f[0]) * 10
    else DigitValue(f[0]) * 10 + DigitValue(f[1])
  }

  /**
   * The magnitude, in cents, of an unsigned decimal literal: digits and an
   * optional '.' followed by at most two digits, with at least one digit in
   * all (so "5", "5.", ".5" and "5.25" are read, "." and "5.255" are not).
   */
  function UnsignedCents(body: string): (r: Num)
    ensures r.Finite? ==> r.cents >= 0
  {
    var k := IndexOfDot(body);
    var ip := body[..k];
    var fp := if k < |body| then body[k + 1..] else "";
    if AllDigits(ip) && AllDigits(fp) && |fp| <= 2 && |ip| + |fp| >= 1 then
      Finite(DigitsValue(ip) * 100 + FractionCents(fp))
    else
      NaN
  }

  /**
   * `parseFloat(s)` for the decimal literals money fields hold: an optional
   * sign followed by an unsigned literal. Every other string is NaN here.
   */
  function ParseFloat(s: string): (r: Num)
    ensures s == "" ==> r == NaN
  {
    if |s| > 0 && (s[0] == '-' || s[0] == '+') then
      var m := UnsignedCents(s[1..]);
      if s[0] == '-' && m.Finite? then Finite(-m.cents) else m
    else
      UnsignedCents(s)
  }

  /** `Number(s)`: like parseFloat, except that the empty string is 0. */
  function ToNumber(s: string): (r: Num)
    ensures s == "" ==> r == Finite(0)
    ensures s != "" ==> r == ParseFloat(s)
  {
    if s == "" then Finite(0) else ParseFloat(s)
  }

  /** `n.toFixed(2)`: an optional '-', the whole units, '.', two digits; "NaN" for NaN. */
  function ToFixed2(n: Num): (s: string)
    ensures n.NaN? ==> s == "NaN"
  {
    match n
    case NaN => "NaN"
    case Finite(c) =>
      var m: nat := if c < 0 then -c else c;
      (if c < 0 then "-" else "") + NatToDigits(m / 100) + "." + [DigitChar(m % 100 / 10), DigitChar(m % 10)]
  }

  lemma {:induction false} IndexOfDotAfterDigits(d: string, rest: string)
    requires AllDigits(d)
    ensures IndexOfDot(d + "." + rest) == |d|
  {
    if d != [] {
      assert (d + "." + rest)[1..] == d[1..] + "." + rest;
      IndexOfDotAfterDigits(d[1..], rest);
    }
  }

  /** The unsigned literal "digits.dd" with non-empty digits. */
  lemma {:induction false} UnsignedFixedLiteral(d: string, f: string)
    requires AllDigits(d) && |d| >= 1 && AllDigits(f) && |f| == 2
    ensures UnsignedCents(d + "." + f) == Finite(DigitsValue(d) * 100 + FractionCents(f))
  {
    var body := d + "." + f;
    IndexOfDotAfterDigits(d, f);
    assert body[..|d|] == d;
    assert body[|d| + 1..] == f;
  }

  /** parseFloat of "[-]digits.dd" with non-empty digits. */
  lemma {:induction false} ParseFixedLiteral(neg: bool, d: string, f: string)
    requires AllDigits(d) && |d| >= 1 && AllDigits(f) && |f| == 2
    ensures var magnitude := DigitsValue(d) * 100 + FractionCents(f);
            ParseFloat((if neg then "-" else "") + d + "." + f) == Finite(if neg then -magnitude else magnitude)
  {
    var body := d + "." + f;
    UnsignedFixedLiteral(d, f);
    if neg {
      var s := "-" + d + "." + f;
      assert s[0] == '-' && s[1..] == body;
    } else {
      var s := "" + d + "." + f;
      assert s == body && s[0] == d[0] && IsDigit(d[0]);
    }
  }

  /** A string of digits holds no '.'. */
  lemma {:induction false} IndexOfDotOfDigits(d: string)
    requires AllDigits(d)
    ensures IndexOfDot(d) == |d|
  {
    if d != [] {
      assert d[0] != '.';
      IndexOfDotOfDigits(d[1..]);
    }
  }

  /** One fraction digit is tenths and two are hundredths: "5" is 50 cents, "05" is 5. */
  lemma FractionCentsValue(f: string)
    requires AllDigits(f) && |f| <= 2
    ensures FractionCents(f) == DigitsValue(f) * Pow10(2 - |f|)
  {
    if |f| == 1 {
      assert f[..0] == [];
    } else if |f| == 2 {
      assert f[..1][..0] == [];
      assert f[..1][0] == f[0];
    }
  }

  /** The unsigned literals "d", "d.", ".f" and "d.f", with at most two digits after the point. */
  lemma {:induction false} UnsignedLiteral(d: string, point: bool, f: string)
    requires AllDigits(d) && AllDigits(f) && |f| <= 2 && |d| + |f| >= 1 && (point || f == "")
    ensures UnsignedCents(d + (if point then "." + f else "")) ==
            Finite(DigitsValue(d) * 100 + DigitsValue(f) * Pow10(2 - |f|))
  {
    FractionCentsValue(f);
    var body := d + (if point then "." + f else "");
    if point {
      assert body == d + "." + f;
      IndexOfDotAfterDigits(d, f);
      assert body[..|d|] == d;
      assert body[|d| + 1..] == f;
    } else {
      assert body == d;
      IndexOfDotOfDigits(d);
      assert body[..|d|] == d;
    }
  }

  /** parseFloat reads an optional sign, then an unsigned literal that does not start with a sign. */
  lemma ParseSigned(sign: string, body: string)
    requires sign == "" || sign == "-" || sign == "+"
    requires |body| > 0 && body[0] != '-' && body[0] != '+'
    ensures var m := UnsignedCents(body);
            ParseFloat(sign + body) == if sign == "-" && m.Finite? then Finite(-m.cents) else m
  {
    var s := sign + body;
    if sign == "" {
      assert s == body;
    } else {
      assert s[0] == sign[0] && s[1..] == body;
    }
  }

  /**
   * parseFloat of a decimal literal with an optional sign: whole digits,
   * then optionally a point and at most two fraction digits, with at least
   * one digit in all ("100", "-5.", ".5", "+45.5", "12.25").
   */
  lemma {:induction false} ParseDecimalLiteral(sign: string, d: string, point: bool, f: string)
    requires sign == "" || sign == "-" || sign == "+"
    requires AllDigits(d) && AllDigits(f) && |f| <= 2 && |d| + |f| >= 1 && (point || f == "")
    ensures var magnitude := DigitsValue(d) * 100 + DigitsValue(f) * Pow10(2 - |f|);
            ParseFloat(sign + d + (if point then "." + f else "")) == Finite(if sign == "-" then -magnitude else magnitude)
  {
    var tail := if point then "." + f else "";
    var body := d + tail;
    assert sign + d + tail == sign + body;
    UnsignedLiteral(d, point, f);
    LiteralStartsUnsigned(d, tail);
    ParseSigned(sign, body);
  }

  /** A literal starting with a digit or a point does not start with a sign. */
  lemma LiteralStartsUnsigned(d: string, tail: string)
    requires AllDigits(d) && (|d| > 0 || (|tail| > 0 && tail[0] == '.'))
    ensures |d + tail| > 0 && (d + tail)[0] != '-' && (d + tail)[0] != '+'
  {
    if |d| > 0 {
      assert (d + tail)[0] == d[0] && IsDigit(d[0]);
    } else {
      assert (d + tail)[0] == tail[0];
    }
  }

  // parseFloat on the literals a money field typically holds.

  lemma WholeLiteralExample()
    ensures ParseFloat("100") == Finite(10000)
  {
    var hundred := "100";
    assert DigitsValue("1") == 1 by { assert "1"[..0] == ""; }
    assert DigitsValue("10") == 10 by { assert "10"[..1] == "1"; }
    assert DigitsValue(hundred) == 100 by { assert hundred[..2] == "10"; }
    ParseDecimalLiteral("", hundred, false, "");
    assert "" + hundred + "" == "100";
  }

  lemma TenthsLiteralExample()
    ensures ParseFloat("45.5") == Finite(4550)
  {
    var d, f := "45", "5";
    assert DigitsValue(d) == 45 by { assert d[..1] == "4" && d[..1][..0] == ""; }
    assert DigitsValue(f) == 5 by { assert f[..0] == ""; }
    ParseDecimalLiteral("", d, true, f);
    assert "" + d + ("." + f) == "45.5";
  }

  lemma LeadingPointExample()
    ensures ParseFloat(".5") == Finite(50)
  {
    var f := "5";
    assert DigitsValue(f) == 5 by { assert f[..0] == ""; }
    ParseDecimalLiteral("", "", true, f);
    assert "" + "" + ("." + f) == ".5";
  }

  lemma TrailingPointExample()
    ensures ParseFloat("5.") == Finite(500)
  {
    var d := "5";
    assert DigitsValue(d) == 5 by { assert d[..0] == ""; }
    ParseDecimalLiteral("", d, true, "");
    assert "" + d + ("." + "") == "5.";
  }

  lemma NegativeLiteralExample()
    ensures ParseFloat("-2.5") == Finite(-250)
  {
    var d, f := "2", "5";
    assert DigitsValue(d) == 2 by { assert d[..0] == ""; }
    assert DigitsValue(f) == 5 by { assert f[..0] == ""; }
    ParseDecimalLiteral("-", d, true, f);
    assert "-" + d + ("." + f) == "-2.5";
  }

  lemma TwoDigitFraction(m: nat)
    ensures FractionCents([DigitChar(m % 100 / 10), DigitChar(m % 10)]) == m % 100
  {
  }

  lemma ParseNaNText()
    ensures ParseFloat("NaN") == NaN
  {
    assert IndexOfDot("NaN") == 3;
    assert !IsDigit("NaN"[0]);
  }

  /** toFixed(2) followed by parseFloat gives back the same amount, NaN included. */
  lemma ParseToFixed2(n: Num)
    ensures ParseFloat(ToFixed2(n)) == n
  {
    match n
    case NaN =>
      ParseNaNText();
    case Finite(c) =>
      var m: nat := if c < 0 then -c else c;
      var d := NatToDigits(m / 100);
      var f := [DigitChar(m % 100 / 10), DigitChar(m % 10)];
      assert ToFixed2(n) == (if c < 0 then "-" else "") + d + "." + f;
      ParseFixedLiteral(c < 0, d, f);
      NatToDigitsValue(m / 100);
      TwoDigitFraction(m);
  }

  /** An amount that fits a numeric(10,2) column: at most ten digits, two of them after the point. */
  predicate FitsNumeric10x2(c: int) {
    -(Pow10(10) as int) < c < Pow10(10)
  }

  /** toFixed(2) of an amount that fits numeric(10,2) has exactly two fraction digits and at most eight whole digits. */
  lemma ToFixed2Shape(c: int)
    requires FitsNumeric10x2(c)
    ensures var m: nat := if c < 0 then -c else c;
            var s := ToFixed2(Finite(c));
            var whole := NatToDigits(m / 100);
            && s == (if c < 0 then "-" else "") + whole + "." + s[|s| - 2..]
            && AllDigits(s[|s| - 2..])
            && |whole| <= 8
  {
    var m: nat := if c < 0 then -c else c;
    assert Pow10(10) == Pow10(8) * 100 by {
      assert Pow10(10) == 10 * 10 * Pow10(8);
    }
    NatToDigitsLength(m / 100, 8);
  }
}
