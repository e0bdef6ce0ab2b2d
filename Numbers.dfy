/** Reading the digits of scraped text as a two-decimal fixed-point amount,
    and writing naturals back as decimal text (ids, years, months). */
module Numbers {

  predicate IsDigit(c: char) { '0' <= c <= '9' }

  predicate AllDigits(s: string) { forall i :: 0 <= i < |s| ==> IsDigit(s[i]) }

  predicate NoDigits(s: string) { forall i :: 0 <= i < |s| ==> !IsDigit(s[i]) }

  /** What `replace(/([^\d])+/gim, '')` leaves of `s`: its decimal digits, in order. */
  function StripNonDigits(s: string): (r: string)
    ensures AllDigits(r)
    ensures |r| <= |s|
  {
    if s == [] then []
    else (if IsDigit(s[0]) then [s[0]] else []) + StripNonDigits(s[1..])
  }

  lemma {:induction false} StripConcat(a: string, b: string)
    ensures StripNonDigits(a + b) == StripNonDigits(a) + StripNonDigits(b)
  {
    if a == [] {
      assert a + b == b;
    } else {
      assert (a + b)[0] == a[0];
      assert (a + b)[1..] == a[1..] + b;
      StripConcat(a[1..], b);
    }
  }

  /** A character that is not a digit has no effect on the digits read. */
  lemma StripIgnoresNonDigit(a: string, c: char, b: string)
    requires !IsDigit(c)
    ensures StripNonDigits(a + [c] + b) == StripNonDigits(a + b)
  {
    StripConcat(a + [c], b);
    StripConcat(a, [c]);
    StripConcat(a, b);
    assert StripNonDigits([c]) == [];
  }

  /** Text made of digits only is left as it is. */
  lemma {:induction false} StripDigitsOnly(s: string)
    requires AllDigits(s)
    ensures StripNonDigits(s) == s
  {
    if s != [] {
      StripDigitsOnly(s[1..]);
    }
  }

  /** Stripping twice is stripping once. */
  lemma StripIdempotent(s: string)
    ensures StripNonDigits(StripNonDigits(s)) == StripNonDigits(s)
  {
    StripDigitsOnly(StripNonDigits(s));
  }

  /** The characters kept are exactly the digits of `s`. */
  lemma {:induction false} StripKeepsDigits(s: string)
    ensures forall c :: c in StripNonDigits(s) <==> c in s && IsDigit(c)
  {
    if s != [] {
      StripKeepsDigits(s[1..]);
      assert s == [s[0]] + s[1..];
    }
  }

  /** Text without a digit strips to the empty string, and only such text does. */
  lemma StripEmptyIffNoDigits(s: string)
    ensures StripNonDigits(s) == [] <==> NoDigits(s)
  {
    StripKeepsDigits(s);
    if StripNonDigits(s) == [] {
      forall i | 0 <= i < |s| ensures !IsDigit(s[i]) {
        assert s[i] in s;
      }
    } else {
      var c := StripNonDigits(s)[0];
      assert c in StripNonDigits(s);
      var i :| 0 <= i < |s| && s[i] == c;
      assert IsDigit(s[i]);
    }
  }

  function Pow10(n: nat): (p: nat)
    ensures p >= 1
  {
    if n == 0 then 1 else 10 * Pow10(n - 1)
  }

  function DigitValue(c: char): (v: nat)
    requires IsDigit(c)
    ensures v < 10
  {
    (c as int) - ('0' as int)
  }

  function DigitChar(v: nat): (c: char)
    requires v < 10
    ensures IsDigit(c) && DigitValue(c) == v
  {
    (('0' as int) + v) as char
  }

  /** The natural number written by the decimal digits `d`, most significant first. */
  function DigitsValue(d: string): (n: nat)
    requires AllDigits(d)
    ensures n < Pow10(|d|)
  {
    if d == [] then 0
    else
      var n' := DigitsValue(d[..|d| - 1]);
      assert n' * 10 <= (Pow10(|d| - 1) - 1) * 10;
      n' * 10 + DigitValue(d[|d| - 1])
  }

  lemma {:induction false} DigitsValueConcat(a: string, b: string)
    requires AllDigits(a) && AllDigits(b)
    ensures AllDigits(a + b)
    ensures DigitsValue(a + b) == DigitsValue(a) * Pow10(|b|) + DigitsValue(b)
  {
    assert AllDigits(a + b) by {
      forall i | 0 <= i < |a + b| ensures IsDigit((a + b)[i]) {
        if i < |a| { assert (a + b)[i] == a[i]; } else { assert (a + b)[i] == b[i - |a|]; }
      }
    }
    if b == [] {
      assert a + b == a;
    } else {
      var b' := b[..|b| - 1];
      assert (a + b)[..|a + b| - 1] == a + b';
      assert (a + b)[|a + b| - 1] == b[|b| - 1];
      DigitsValueConcat(a, b');
      var x, p, y, z := DigitsValue(a), Pow10(|b'|), DigitsValue(b'), DigitValue(b[|b| - 1]);
      assert DigitsValue(a + b) == DigitsValue(a + b') * 10 + z;
      assert DigitsValue(b) == y * 10 + z;
      assert Pow10(|b|) == 10 * p;
      ShiftDigit(x, p, y, z);
    }
  }

  lemma ShiftDigit(x: nat, p: nat, y: nat, z: nat)
    ensures (x * p + y) * 10 + z == x * (10 * p) + (y * 10 + z)
  {
    assert (x * p) * 10 == x * (10 * p);
  }

  /** `String(n)`: the decimal text of `n`, most significant digit first. */
  function DecimalText(n: nat): string
  {
    if n < 10 then [DigitChar(n)] else DecimalText(n / 10) + [DigitChar(n % 10)]
  }

  /** The decimal text is canonical (no leading zero except for "0" itself)
      and reads back as `n`. */
  lemma {:induction false} DecimalTextValue(n: nat)
    ensures AllDigits(DecimalText(n)) && |DecimalText(n)| >= 1
    ensures n > 0 ==> DecimalText(n)[0] != '0'
    ensures DigitsValue(DecimalText(n)) == n
  {
    if n >= 10 {
      DecimalTextValue(n / 10);
      var p := DecimalText(n / 10);
      var s := p + [DigitChar(n % 10)];
      assert s[..|s| - 1] == p;
      assert s[0] == p[0];
    }
  }

  /** A digit string without a leading zero is the `DecimalText` of its value:
      the two are inverse bijections between such strings and naturals. */
  lemma {:induction false} DecimalTextOfValue(d: string)
    requires AllDigits(d) && |d| >= 1
    requires |d| > 1 ==> d[0] != '0'
    ensures DecimalText(DigitsValue(d)) == d
  {
    DecimalTextValue(DigitsValue(d));
    var d' := d[..|d| - 1];
    var c := d[|d| - 1];
    var v := DigitsValue(d);
    assert d == d' + [c];
    if |d| == 1 {
      assert v == DigitValue(c);
      assert DigitChar(v) == c;
    } else {
      assert d'[0] == d[0];
      LeadingDigitPositive(d');
      assert v == DigitsValue(d') * 10 + DigitValue(c);
      assert v / 10 == DigitsValue(d') && v % 10 == DigitValue(c);
      DecimalTextOfValue(d');
      assert DigitChar(DigitValue(c)) == c;
    }
  }

  lemma {:induction false} LeadingDigitPositive(d: string)
    requires AllDigits(d) && |d| >= 1 && d[0] != '0'
    ensures DigitsValue(d) >= 1
  {
    if |d| > 1 {
      assert d[..|d| - 1][0] == d[0];
      LeadingDigitPositive(d[..|d| - 1]);
    }
  }

  /** `("0" + m).substr(-2)`: the last two characters of `m` written with a
      leading zero; for a month 1..12 this is "01".."12". */
  function Pad2(m: nat): (r: string)
    ensures |r| == 2 && AllDigits(r)
    ensures m < 100 ==> DigitsValue(r) == m
  {
    DecimalTextValue(m);
    var s := "0" + DecimalText(m);
    var r := s[|s| - 2..];
    assert AllDigits(r) by {
      forall i | 0 <= i < 2 ensures IsDigit(r[i]) {
        assert r[i] == s[|s| - 2 + i];
      }
    }
    if m < 10 then
      assert DecimalText(m) == [DigitChar(m)];
      assert r == ['0', DigitChar(m)];
      assert r[..1] == ['0'];
      r
    else if m < 100 then
      assert DecimalText(m) == DecimalText(m / 10) + [DigitChar(m % 10)];
      assert |DecimalText(m)| == 2;
      assert r == DecimalText(m);
      r
    else
      r
  }

  /** `convertNumber`: the digits of the cell text read as hundredths. */
  function ConvertNumber(text: string): (cents: nat)
    ensures NoDigits(text) ==> cents == 0
    ensures cents < Pow10(|text|)
  {
    StripEmptyIffNoDigits(text);
    var d := StripNonDigits(text);
    assert Pow10(|d|) <= Pow10(|text|) by { Pow10Monotone(|d|, |text|); }
    DigitsValue(d)
  }

  lemma {:induction false} Pow10Monotone(a: nat, b: nat)
    requires a <= b
    ensures Pow10(a) <= Pow10(b)
  {
    if a < b { Pow10Monotone(a, b - 1); }
  }

  /** `converteNumberText`: like `convertNumber`, but with the empty digit
      string checked for explicitly; the two agree on every text. */
  function ConverteNumberText(text: string): (cents: nat)
    ensures cents == ConvertNumber(text)
    ensures NoDigits(text) ==> cents == 0
  {
    if StripNonDigits(text) == "" then 0 else DigitsValue(StripNonDigits(text))
  }

  /** Inserting non-digit characters anywhere leaves the amount unchanged. */
  lemma ConvertIgnoresNonDigit(a: string, c: char, b: string)
    requires !IsDigit(c)
    ensures ConvertNumber(a + [c] + b) == ConvertNumber(a + b)
  {
    StripIgnoresNonDigit(a, c, b);
  }

  /** An amount of `cents` written as Brazilian currency without thousands
      separators, "R$ <reais>,<centavos>". */
  function FormatReais(cents: nat): string
  {
    "R$ " + DecimalText(cents / 100) + "," + Pad2(cents % 100)
  }

  /** Reading a formatted amount gives back the amount. */
  lemma ConvertFormatted(cents: nat)
    ensures ConvertNumber(FormatReais(cents)) == cents
  {
    var a := DecimalText(cents / 100);
    var b := Pad2(cents % 100);
    DecimalTextValue(cents / 100);
    var x := "R$ " + a;
    var y := x + ",";
    assert FormatReais(cents) == y + b;
    assert StripNonDigits("R$ ") == [] by { StripEmptyIffNoDigits("R$ "); }
    assert StripNonDigits(",") == [] by { StripEmptyIffNoDigits(","); }
    StripDigitsOnly(a);
    StripDigitsOnly(b);
    StripConcat("R$ ", a);
    assert StripNonDigits(x) == a;
    StripConcat(x, ",");
    assert StripNonDigits(y) == a;
    StripConcat(y, b);
    assert StripNonDigits(y + b) == a + b;
    DigitsValueConcat(a, b);
    assert Pow10(2) == 100;
    assert DigitsValue(a + b) == cents / 100 * 100 + cents % 100;
  }

  /** Example: "R$ 1.234,56" is 123456 cents. */
  lemma ConvertExample()
    ensures ConvertNumber("R$ 1.234,56") == 123456
  {
    StripExample();
    DigitsExample();
  }

  lemma StripExample()
    ensures StripNonDigits("R$ 1.234,56") == "123456"
  {
    var p0, d1, p1, d2, p2, d3 := "R$ ", "1", ".", "234", ",", "56";
    assert StripNonDigits(p0 + d1) == "1" by {
      StripConcat(p0, d1); StripEmptyIffNoDigits(p0); StripDigitsOnly(d1);
    }
    assert StripNonDigits(p0 + d1 + p1) == "1" by {
      StripConcat(p0 + d1, p1); StripEmptyIffNoDigits(p1);
    }
    assert StripNonDigits(p0 + d1 + p1 + d2) == "1234" by {
      StripConcat(p0 + d1 + p1, d2); StripDigitsOnly(d2);
    }
    assert StripNonDigits(p0 + d1 + p1 + d2 + p2) == "1234" by {
      StripConcat(p0 + d1 + p1 + d2, p2); StripEmptyIffNoDigits(p2);
    }
    assert StripNonDigits(p0 + d1 + p1 + d2 + p2 + d3) == "123456" by {
      StripConcat(p0 + d1 + p1 + d2 + p2, d3); StripDigitsOnly(d3);
    }
    assert p0 + d1 + p1 + d2 + p2 + d3 == "R$ 1.234,56";
  }

  lemma DigitsExample()
    ensures DigitsValue("123456") == 123456
  {
    assert "123456"[..5] == "12345";
    assert DigitsValue("1") == 1;
    assert DigitsValue("12") == 12 by { assert "12"[..1] == "1"; }
    assert DigitsValue("123") == 123 by { assert "123"[..2] == "12"; }
    assert DigitsValue("1234") == 1234 by { assert "1234"[..3] == "123"; }
    assert DigitsValue("12345") == 12345 by { assert "12345"[..4] == "1234"; }
  }

  /** Text with no digit at all, such as "abc" or the empty string, is 0. */
  lemma ConvertNoDigits()
    ensures ConvertNumber("") == 0 && ConvertNumber("abc") == 0
    ensures ConverteNumberText("") == 0 && ConverteNumberText("abc") == 0
  {
    assert NoDigits("abc");
  }
}
