/**
 * Decimal numerals: str() of integers, Python's int() and float() on
 * strings, and the bot's price parser (bot.py, parse_price).
 */
module Numerals {
  import opened Wrappers
  import opened Text

  predicate IsAsciiDigit(c: char)
  {
    '0' <= c <= '9'
  }

  predicate AllDigits(s: string)
  {
    forall i :: 0 <= i < |s| ==> IsAsciiDigit(s[i])
  }

  function DigitValue(c: char): (d: nat)
    requires IsAsciiDigit(c)
    ensures d < 10
  {
    c as int - '0' as int
  }

  /** The value of a string of decimal digits, most significant first. */
  function DigitsValue(s: string): nat
    requires AllDigits(s)
    decreases |s|
  {
    if s == "" then 0 else DigitsValue(s[..|s| - 1]) * 10 + DigitValue(s[|s| - 1])
  }

  function DigitChar(d: nat): (c: char)
    requires d < 10
    ensures IsAsciiDigit(c) && DigitValue(c) == d
  {
    ('0' as int + d) as char
  }

  /** str(n) for a natural number: a non-empty run of digits. */
  function NatToString(n: nat): (r: string)
    ensures r != "" && AllDigits(r)
    ensures n >= 10 ==> r[0] != '0'
    decreases n
  {
    if n < 10 then [DigitChar(n)] else NatToString(n / 10) + [DigitChar(n % 10)]
  }

  /** Reading back the digits of n gives n. */
  lemma {:induction false} NatToStringValue(n: nat)
    ensures DigitsValue(NatToString(n)) == n
    decreases n
  {
    if n >= 10 {
      NatToStringValue(n / 10);
      var s := NatToString(n);
      assert s[..|s| - 1] == NatToString(n / 10);
    }
  }

  /** Different numbers have different decimal strings. */
  lemma NatToStringInjective(a: nat, b: nat)
    requires NatToString(a) == NatToString(b)
    ensures a == b
  {
    NatToStringValue(a);
    NatToStringValue(b);
  }

  /** str(i) for any integer. */
  function IntToString(i: int): (r: string)
    ensures r != "" && r[|r| - 1] != '-'
    ensures i >= 0 ==> AllDigits(r)
    ensures i < 0 ==> r[0] == '-' && AllDigits(r[1..])
  {
    if i < 0 then "-" + NatToString(-i) else NatToString(i)
  }

  /**
   * int(s) for a string: optional surrounding whitespace, an optional sign,
   * then at least one ASCII digit. None models the ValueError.
   */
  function ParseIntLiteral(s: string): (r: Option<int>)
  {
    var t := Strip(s);
    if t != "" && (t[0] == '-' || t[0] == '+') then
      var body := t[1..];
      if body != "" && AllDigits(body) then
        Some(if t[0] == '-' then -(DigitsValue(body) as int) else DigitsValue(body) as int)
      else None
    else if t != "" && AllDigits(t) then Some(DigitsValue(t))
    else None
  }

  /** int(str(i)) == i */
  lemma IntRoundTrip(i: int)
    ensures ParseIntLiteral(IntToString(i)) == Some(i)
  {
    if i < 0 {
      NegativeRoundTrip(i);
    } else {
      NatRoundTrip(i);
    }
  }

  /** int() reads back the digits of a natural number. */
  lemma NatRoundTrip(n: nat)
    ensures ParseIntLiteral(IntToString(n)) == Some(n)
  {
    var d := NatToString(n);
    NatToStringValue(n);
    ParsePlain(d);
  }

  /** int() reads back a minus sign followed by the digits of n. */
  lemma NegativeRoundTrip(i: int)
    requires i < 0
    ensures ParseIntLiteral(IntToString(i)) == Some(i)
  {
    var d := NatToString(-i);
    NatToStringValue(-i);
    var r := "-" + d;
    assert IntToString(i) == r;
    ParseNegative(r, d);
    assert DigitsValue(d) == -i;
    assert ParseIntLiteral(r) == Some(i);
  }

  /** int() on ASCII digits alone. */
  lemma ParsePlain(d: string)
    requires d != "" && AllDigits(d)
    ensures ParseIntLiteral(d) == Some(DigitsValue(d) as int)
  {
    assert !IsSpace(d[0]) && !IsSpace(d[|d| - 1]);
    StripNoSpace(d);
  }

  /** int() on a minus sign and ASCII digits. */
  lemma ParseNegative(r: string, d: string)
    requires r == "-" + d && d != "" && AllDigits(d)
    ensures ParseIntLiteral(r) == Some(-(DigitsValue(d) as int))
  {
    assert !IsSpace(r[0]) && !IsSpace(r[|r| - 1]);
    StripNoSpace(r);
    assert r[1..] == d;
  }

  /**
   * The body of a float literal without exponent: digits with at most one
   * decimal point and at least one digit overall.
   */
  predicate IsDecimal(t: string)
  {
    var k := IndexOf(t, '.');
    AllDigits(t[..k]) && (k < |t| ==> AllDigits(t[k + 1..])) && |t| > (if k < |t| then 1 else 0)
  }

  function Pow10(n: nat): (p: nat)
    ensures p >= 1
  {
    if n == 0 then 1 else 10 * Pow10(n - 1)
  }

  /** The exact value of a decimal literal body. */
  function DecimalValue(t: string): (v: real)
    requires IsDecimal(t)
    ensures v >= 0.0
  {
    var k := IndexOf(t, '.');
    if k == |t| then DigitsValue(t) as real
    else DigitsValue(t[..k]) as real + DigitsValue(t[k + 1..]) as real / Pow10(|t| - k - 1) as real
  }

  /**
   * float(s) for a string: surrounding whitespace, an optional sign and a
   * decimal body. None models the ValueError.
   */
  function ParseFloatLiteral(s: string): (r: Option<real>)
    ensures r.Some? && Strip(s) != "" && Strip(s)[0] == '-' ==> r.value <= 0.0
  {
    var t := Strip(s);
    if t != "" && (t[0] == '-' || t[0] == '+') then
      var body := t[1..];
      if IsDecimal(body) then Some(if t[0] == '-' then -DecimalValue(body) else DecimalValue(body)) else None
    else if IsDecimal(t) then Some(DecimalValue(t))
    else None
  }

  /**
   * The characters Python's str.isdigit() accepts among those the model
   * knows: the ASCII digits, the superscript digits and the subscript digits.
   */
  predicate IsPyDigit(c: char)
  {
    var n := c as int;
    IsAsciiDigit(c) || n == 0xb2 || n == 0xb3 || n == 0xb9 || n == 0x2070 ||
    0x2074 <= n <= 0x2079 || 0x2080 <= n <= 0x2089
  }

  /** s.isdigit(): non-empty and every character a digit. */
  predicate PyIsDigit(s: string)
  {
    s != "" && forall i :: 0 <= i < |s| ==> IsPyDigit(s[i])
  }

  /** What parse_price can do: decline, return a price, or let float() raise. */
  datatype PriceParse = NotANumber | Parsed(price: real) | Raised

  /**
   * parse_price as written: strip, drop every comma, accept when the string
   * with its first '.' removed passes str.isdigit(), then call float(),
   * whose ValueError the function does not catch.
   */
  function ParsePriceAsWritten(text: string): (r: PriceParse)
    ensures r.NotANumber? <==> !PyIsDigit(RemoveFirst(RemoveChar(Strip(text), ','), '.'))
    ensures r.Parsed? ==> r.price >= 0.0
    ensures r.Parsed? ==> ParseFloatLiteral(RemoveChar(Strip(text), ',')) == Some(r.price)
  {
    var t := RemoveChar(Strip(text), ',');
    if !PyIsDigit(RemoveFirst(t, '.')) then NotANumber
    else
      DigitEnds(t);
      FloatOfPlain(t);
      match ParseFloatLiteral(t)
      case None => Raised
      case Some(p) => Parsed(p)
  }

  /**
   * parse_price as evidently intended: the guard admits only ASCII digits
   * around at most one '.', so every accepted string is one float() reads.
   */
  function ParsePrice(text: string): (r: Option<real>)
    ensures r.Some? ==> r.value >= 0.0
    ensures r.Some? ==> ParseFloatLiteral(RemoveChar(Strip(text), ',')) == r
    ensures r.Some? <==> RemoveFirst(RemoveChar(Strip(text), ','), '.') != "" &&
                         AllDigits(RemoveFirst(RemoveChar(Strip(text), ','), '.'))
  {
    var t := RemoveChar(Strip(text), ',');
    var d := RemoveFirst(t, '.');
    if d != "" && AllDigits(d) then
      GuardedIsDecimal(t);
      assert PyIsDigit(d);
      DigitEnds(t);
      FloatOfPlain(t);
      Some(DecimalValue(t))
    else None
  }

  /** A string that passes the corrected guard is a decimal literal body. */
  lemma GuardedIsDecimal(t: string)
    requires RemoveFirst(t, '.') != "" && AllDigits(RemoveFirst(t, '.'))
    ensures IsDecimal(t)
  {
    var k := IndexOf(t, '.');
    var d := RemoveFirst(t, '.');
    if k < |t| {
      RemoveFirstShift(t, '.');
      forall i | 0 <= i < k
        ensures IsAsciiDigit(t[..k][i])
      {
        assert t[..k][i] == d[i];
      }
      var tail := t[k + 1..];
      forall j | 0 <= j < |tail|
        ensures IsAsciiDigit(tail[j])
      {
        assert tail[j] == d[k + j];
      }
    }
  }

  /**
   * The corrected parser accepts exactly what the original accepts without
   * raising: where it declines, the original declines or raises.
   */
  lemma ParsePriceAgreesWithFloat(text: string)
    ensures ParsePrice(text).Some? ==> ParsePriceAsWritten(text) == Parsed(ParsePrice(text).value)
    ensures ParsePrice(text).None? ==> !ParsePriceAsWritten(text).Parsed?
  {
    var t := RemoveChar(Strip(text), ',');
    var d := RemoveFirst(t, '.');
    if PyIsDigit(d) && ParseFloatLiteral(t).Some? {
      AcceptedIsAscii(t);
    }
  }

  /** Where the characters of t land once its first c is removed. */
  lemma RemoveFirstShift(t: string, c: char)
    requires IndexOf(t, c) < |t|
    ensures |RemoveFirst(t, c)| == |t| - 1
    ensures forall j :: 0 <= j < IndexOf(t, c) ==> RemoveFirst(t, c)[j] == t[j]
    ensures forall j :: IndexOf(t, c) <= j < |t| - 1 ==> RemoveFirst(t, c)[j] == t[j + 1]
  {
  }

  /** Removing the point from a decimal literal leaves only digits. */
  lemma DecimalDropDot(t: string)
    requires IsDecimal(t)
    ensures AllDigits(RemoveFirst(t, '.'))
  {
    var k := IndexOf(t, '.');
    var d := RemoveFirst(t, '.');
    if k < |t| {
      RemoveFirstShift(t, '.');
      forall j | 0 <= j < |d|
        ensures IsAsciiDigit(d[j])
      {
        if j < k {
          assert d[j] == t[..k][j];
        } else {
          assert d[j] == t[k + 1..][j - k];
        }
      }
    } else {
      assert t[..k] == t;
    }
  }

  /** When the string without its first '.' is all digits, t has neither whitespace nor a sign at its ends. */
  lemma DigitEnds(t: string)
    requires PyIsDigit(RemoveFirst(t, '.'))
    ensures t != "" && t[0] != '-' && t[0] != '+'
    ensures !IsSpace(t[0]) && !IsSpace(t[|t| - 1])
  {
    var k := IndexOf(t, '.');
    var d := RemoveFirst(t, '.');
    if k < |t| {
      RemoveFirstShift(t, '.');
      assert t[0] == (if k == 0 then '.' else d[0]);
      assert t[|t| - 1] == (if k == |t| - 1 then '.' else d[|d| - 1]);
    }
    assert IsPyDigit(d[0]) && IsPyDigit(d[|d| - 1]);
  }

  /** float() reads an unsigned string without surrounding whitespace only when it is a decimal literal. */
  lemma FloatOfPlain(t: string)
    requires t != "" && t[0] != '-' && t[0] != '+'
    requires !IsSpace(t[0]) && !IsSpace(t[|t| - 1])
    ensures ParseFloatLiteral(t) == if IsDecimal(t) then Some(DecimalValue(t)) else None
  {
    StripNoSpace(t);
  }

  /** A string float() reads and whose first '.' left digits behind is made of ASCII digits. */
  lemma AcceptedIsAscii(t: string)
    requires PyIsDigit(RemoveFirst(t, '.')) && ParseFloatLiteral(t).Some?
    ensures AllDigits(RemoveFirst(t, '.'))
  {
    DigitEnds(t);
    FloatOfPlain(t);
    DecimalDropDot(t);
  }

  /** A string with no c is left alone by removing c. */
  lemma RemoveCharAbsent(s: string, c: char)
    requires c !in s
    ensures RemoveChar(s, c) == s
  {
  }

  lemma DigitsHaveNo(s: string, c: char)
    requires AllDigits(s) && !IsAsciiDigit(c)
    ensures c !in s && IndexOf(s, c) == |s|
  {
  }

  /** A run of digits is a price whose value is the number it spells. */
  lemma ParsePriceOfDigits(s: string)
    requires s != "" && AllDigits(s)
    ensures ParsePrice(s) == Some(DigitsValue(s) as real)
  {
    StripNoSpace(s);
    DigitsHaveNo(s, ',');
    RemoveCharAbsent(s, ',');
    DigitsHaveNo(s, '.');
  }

  /** The price parser reads back any whole number written in decimal. */
  lemma ParsePriceOfNat(n: nat)
    ensures ParsePrice(NatToString(n)) == Some(n as real)
  {
    ParsePriceOfDigits(NatToString(n));
    NatToStringValue(n);
  }

  /** The guard as written admits a superscript digit, and float() then raises. */
  lemma ParsePriceAsWrittenRaises()
    ensures ParsePriceAsWritten("²") == Raised
    ensures ParsePrice("²") == None
  {
    SuperscriptTwoCleaned();
    SuperscriptTwoNoFloat();
  }

  /** Stripping, dropping commas and dropping the first '.' leave "²" alone. */
  lemma SuperscriptTwoCleaned()
    ensures RemoveChar(Strip("²"), ',') == "²"
    ensures RemoveFirst("²", '.') == "²"
  {
    SuperscriptTwoStrips();
    RemoveCharAbsent("²", ',');
    SuperscriptTwoHasNoPoint();
  }

  lemma SuperscriptTwoStrips()
    ensures Strip("²") == "²"
  {
    var s := "²";
    assert !IsSpace(s[0]);
    StripNoSpace(s);
  }

  lemma SuperscriptTwoHasNoPoint()
    ensures IndexOf("²", '.') == 1
  {
    var s := "²";
    assert s[0] != '.' && s[1..] == "";
  }

  /** "²" passes str.isdigit(), but it is not ASCII and not a float literal. */
  lemma SuperscriptTwoNoFloat()
    ensures PyIsDigit("²") && !AllDigits("²")
    ensures ParseFloatLiteral("²") == None
  {
    var s := "²";
    assert !IsSpace(s[0]) && !IsAsciiDigit(s[0]);
    assert IndexOf(s, '.') == 1;
    assert !AllDigits(s[..1]);
    FloatOfPlain(s);
  }
}
