/**
  The value side of the colour code: how the `resistance` setter of
  resistor.py turns a resistance and a tolerance into four bands
  (lines 84-108), and how the `code` setter turns bands back into a
  resistance (lines 134-136).

  A Python resistance is either an `int` or a `float`; the difference shows,
  because `str(r)` of an int has no decimal point. `Float` values are exact
  multiples of 0.01 ohm; every value the `code` setter produces is one.
*/
module Codec {
  import opened Results
  import opened ColorCode
  import opened Decimal

  /** A resistance as Python holds it: an int number of ohms, or a float given in hundredths of an ohm. */
  datatype Number = Int(ohms: int) | Float(centiohms: int)

  /** The exceptions the setters raise. */
  datatype Error = ValueError | TypeError | KeyError | IndexError

  /** The value of r in hundredths of an ohm. */
  function Centiohms(r: Number): int {
    match r
    case Int(n) => 100 * n
    case Float(c) => c
  }

  /** The value of r in ohms. */
  function Ohms(r: Number): real {
    Centiohms(r) as real / 100.0
  }

  /**
    The decimal exponent of r, floor(log10 r): what line 89 means to read off
    `'{:e}'.format(r)`. Python's format gives 0 for r = 0.
  */
  function Exponent(r: Number): (e: int)
    requires Centiohms(r) >= 0
    ensures Centiohms(r) >= 1 ==> -2 <= e && Pow10(e + 2) <= Centiohms(r) < Pow10(e + 3)
  {
    var c := Centiohms(r);
    if c == 0 then 0
    else
      NumDigitsBounds(c);
      NumDigits(c) - 3
  }

  /**
    The exponent line 89 actually reads: `'{:e}'` keeps 7 significant digits,
    so r is first rounded (half up here) to 7 digits, which can carry into
    the next power of ten.
  */
  function FormattedExponent(r: Number): (e: int)
    requires Centiohms(r) >= 0
    ensures e == Exponent(r) || e == Exponent(r) + 1
    ensures NumDigits(Centiohms(r)) <= 7 ==> e == Exponent(r)
  {
    var c := Centiohms(r);
    if c == 0 then 0
    else
      var d := NumDigits(c);
      if d <= 7 then d - 3
      else if (c + 5 * Pow10(d - 8)) / Pow10(d - 7) >= Pow10(7) then d - 2
      else d - 3
  }

  /** The first two decimal digits of n, read as one number: `str(n)[:2]`. */
  function LeadingTwo(n: nat): (p: nat)
    requires n >= 10
    ensures 10 <= p <= 99
    ensures p * Pow10(NumDigits(n) - 2) <= n < (p + 1) * Pow10(NumDigits(n) - 2)
  {
    var unit := Pow10(NumDigits(n) - 2);
    LeadingTwoBounds(n, unit);
    n / unit
  }

  /**
    Lines 87-108 for a non-negative r, given the exponent line 89 produced:
    the three branches on r >= 10, r < 1 and 1 <= r < 10, then band 4 from
    the tolerance. `str(r)` of a float below 10 has its units digit, the
    point, and then the tenths and hundredths digits; `str` of an int below
    10 has a single character, so indexing past it is an IndexError.
  */
  function Bands(r: Number, exponent: int, t: real): (res: Result<seq<Color>, Error>)
    requires Centiohms(r) >= 0
    ensures res.Success? ==> |res.value| == 4 && ToleranceColor(t) == Some(res.value[3])
    ensures res.Failure? ==> res.error == KeyError || res.error == IndexError
  {
    var c := Centiohms(r);
    var head: Result<(Color, Color, Color), Error> :=
      if c >= 1000 then
        (match ColorOf(exponent - 1)
         case None => Failure(KeyError)
         case Some(band3) =>
           var p := LeadingTwo(c);
           Success((ColorOf(p / 10).value, ColorOf(p % 10).value, band3)))
      else if r.Int? then
        Failure(IndexError)
      else if c < 100 then
        // "0.d" is padded to "0.d0" before the tenths and hundredths are read
        Success((ColorOf(c / 10).value, ColorOf(c % 10).value, ColorOf(-2).value))
      else
        Success((ColorOf(c / 100).value, ColorOf((c / 10) % 10).value, ColorOf(-1).value));
    match head
    case Failure(e) => Failure(e)
    case Success((band1, band2, band3)) =>
      match ToleranceColor(t)
      case None => Failure(KeyError)
      case Some(band4) => Success([band1, band2, band3, band4])
  }

  /** The `resistance` setter's code for r under tolerance t, with the exact decimal exponent. */
  function Encode(r: Number, t: real): (res: Result<seq<Color>, Error>)
    ensures res == Failure(ValueError) <==> Centiohms(r) < 0
    ensures res.Success? ==> |res.value| == 4 && ToleranceColor(t) == Some(res.value[3])
  {
    if Centiohms(r) < 0 then Failure(ValueError) else Bands(r, Exponent(r), t)
  }

  /** The same, with the exponent `'{:e}'` really yields (see FormattedExponent). */
  function EncodeAsWritten(r: Number, t: real): (res: Result<seq<Color>, Error>)
    ensures res == Failure(ValueError) <==> Centiohms(r) < 0
    ensures res.Success? ==> |res.value| == 4 && ToleranceColor(t) == Some(res.value[3])
  {
    if Centiohms(r) < 0 then Failure(ValueError) else Bands(r, FormattedExponent(r), t)
  }

  /**
    Lines 134-136: `(10*d1 + d2) * 10**m` with d1, d2, m the `_color_code`
    values of the first three bands. `10**m` is an int for m >= 0 and the
    float 0.1 or 0.01 for gold and silver.
  */
  function CodeValue(code: seq<Color>): (r: Number)
    requires |code| >= 3
    ensures Centiohms(r) == (10 * ValueOf(code[0]) + ValueOf(code[1])) * Pow10(ValueOf(code[2]) + 2)
  {
    var digits := 10 * ValueOf(code[0]) + ValueOf(code[1]);
    var exponent := ValueOf(code[2]);
    if exponent >= 0 then
      ScaleByHundred(digits, exponent);
      Int(digits * Pow10(exponent))
    else
      Float(digits * Pow10(exponent + 2))
  }

  /** The place value, in hundredths of an ohm, of the second digit under multiplier band m. */
  function Unit(m: Color): nat {
    Pow10(ValueOf(m) + 2)
  }

  /**
    A four-band code the `resistance` setter can produce: two digit bands,
    a gold or silver band 4, and a non-zero first digit unless the multiplier
    is silver (values below 0.1 ohm).
  */
  predicate Canonical(code: seq<Color>) {
    && |code| == 4
    && IsDigitColor(code[0]) && IsDigitColor(code[1])
    && !IsDigitColor(code[3])
    && (code[0] != Black || code[2] == Silver)
  }

  lemma LeadingTwoBounds(n: nat, unit: nat)
    requires n >= 10 && unit == Pow10(NumDigits(n) - 2)
    ensures 10 <= n / unit <= 99
    ensures (n / unit) * unit <= n < (n / unit + 1) * unit
  {
    NumDigitsBounds(n);
    assert Pow10(NumDigits(n) - 1) == 10 * unit;
    assert Pow10(NumDigits(n)) == 100 * unit;
    DivBetween(n, unit, 10, 100);
    DivBrackets(n, unit);
  }

  lemma ScaleByHundred(digits: int, exponent: nat)
    ensures 100 * (digits * Pow10(exponent)) == digits * Pow10(exponent + 2)
  {
    Pow10Add(2, exponent);
    assert Pow10(exponent + 2) == 100 * Pow10(exponent);
    calc {
      100 * (digits * Pow10(exponent));
      digits * (100 * Pow10(exponent));
    }
  }

  lemma TenthsOfTenfold(d: nat)
    requires d <= 99
    ensures (10 * d) / 100 == d / 10 && ((10 * d) / 10) % 10 == d % 10
  {
  }

  lemma HundredsViaTens(c: nat)
    ensures (c / 10) / 10 == c / 100
  {
  }

  // ---------------------------------------------------------------------
  // What the code of a resistance is

  /**
    For 10^e <= r < 10^(e+1) with e >= 1 (lines 92-94): bands 1 and 2 are
    the first two decimal digits of r, cut off rather than rounded, and
    band 3 is the colour of e - 1, as long as e - 1 is a digit.
  */
  lemma {:induction false} EncodeAboveTen(r: Number, t: real, e: int)
    requires 1 <= e <= 10 && Pow10(e + 2) <= Centiohms(r) < Pow10(e + 3)
    requires ToleranceColor(t).Some?
    ensures var p := Centiohms(r) / Pow10(e + 1);
      10 <= p <= 99 &&
      Encode(r, t) == Success([Colors[p / 10], Colors[p % 10], Colors[e - 1], ToleranceColor(t).value])
  {
    var c := Centiohms(r);
    NumDigitsOfRange(c, e + 2);
    Pow10Monotone(3, e + 2);
    assert c >= 1000;
    assert Exponent(r) == e;
    var p := LeadingTwo(c);
    assert p == c / Pow10(e + 1);
    assert ColorOf(e - 1) == Some(Colors[e - 1]);
    assert ColorOf(p / 10) == Some(Colors[p / 10]);
    assert ColorOf(p % 10) == Some(Colors[p % 10]);
  }

  /**
    For a float below 10 ohms (lines 96-104): below 1 ohm band 3 is silver
    and bands 1 and 2 are the tenths and hundredths digits (0.1 reads as
    "0.10"); from 1 to 10 ohms band 3 is gold and bands 1 and 2 are the
    units and tenths digits. An int below 10 has no such digits.
  */
  lemma EncodeBelowTen(c: int, t: real)
    requires 0 <= c < 1000 && ToleranceColor(t).Some?
    ensures c < 100 ==>
      Encode(Float(c), t) == Success([Colors[c / 10], Colors[c % 10], Silver, ToleranceColor(t).value])
    ensures 100 <= c ==>
      Encode(Float(c), t) == Success([Colors[c / 100], Colors[(c / 10) % 10], Gold, ToleranceColor(t).value])
    ensures c % 100 == 0 ==> Encode(Int(c / 100), t) == Failure(IndexError)
  {
  }

  /** For r >= 10 ohms, the multiplier colour exists exactly when r < 10^11 ohms. */
  lemma {:induction false} MultiplierInRange(r: Number)
    requires Centiohms(r) >= 1000
    ensures ColorOf(Exponent(r) - 1).Some? <==> Centiohms(r) < Pow10(13)
  {
    var c := Centiohms(r);
    NumDigitsBounds(c);
    var d := NumDigits(c);
    if d <= 3 {
      Pow10Monotone(d, 3);
      assert false;
    }
    if c >= Pow10(13) && d <= 13 {
      Pow10Monotone(d, 13);
      assert false;
    }
    if c < Pow10(13) && d > 13 {
      Pow10Monotone(13, d - 1);
      assert false;
    }
  }

  /**
    When the `resistance` setter fails and with which exception: a negative
    value is a ValueError (line 85); an int below 10 an IndexError (line 103, or
    line 106 for 0, whose slice at line 100 is empty); 10^11 ohms and more a KeyError for the missing multiplier colour
    (line 94); a tolerance other than 0.05 or 0.1 a KeyError (line 108).
    Every other resistance is encoded.
  */
  lemma EncodeOutcome(r: Number, t: real)
    ensures Centiohms(r) < 0 ==> Encode(r, t) == Failure(ValueError)
    ensures r.Int? && 0 <= Centiohms(r) < 1000 ==> Encode(r, t) == Failure(IndexError)
    ensures Centiohms(r) >= Pow10(13) ==> Encode(r, t) == Failure(KeyError)
    ensures ToleranceColor(t).None? && 0 <= Centiohms(r) && (r.Float? || Centiohms(r) >= 1000) ==>
      Encode(r, t) == Failure(KeyError)
    ensures Encode(r, t).Success? <==>
      0 <= Centiohms(r) < Pow10(13) && (r.Float? || Centiohms(r) >= 1000) && ToleranceColor(t).Some?
  {
    Pow10Monotone(3, 13);
    if Centiohms(r) >= 1000 {
      MultiplierInRange(r);
    }
  }

  /** The bands of a code made for r >= 10 ohms, read off the leading two digits and the exponent. */
  lemma EncodeShapeAboveTen(r: Number, t: real)
    requires Centiohms(r) >= 1000 && Encode(r, t).Success?
    ensures var p := LeadingTwo(Centiohms(r));
      && ColorOf(Exponent(r) - 1).Some?
      && Encode(r, t).value ==
         [Colors[p / 10], Colors[p % 10], ColorOf(Exponent(r) - 1).value, ToleranceColor(t).value]
  {
    MultiplierInRange(r);
  }

  /** The values of the three bands of a code made for r >= 10 ohms. */
  lemma {:induction false} BandValuesAboveTen(r: Number, t: real)
    requires Centiohms(r) >= 1000 && Encode(r, t).Success?
    ensures var code := Encode(r, t).value;
      var c := Centiohms(r);
      && 10 * ValueOf(code[0]) + ValueOf(code[1]) == LeadingTwo(c)
      && ValueOf(code[2]) + 2 == NumDigits(c) - 2
      && code[0] != Black && IsDigitColor(code[0]) && IsDigitColor(code[1])
      && code[3] == ToleranceColor(t).value
  {
    var c := Centiohms(r);
    var p := LeadingTwo(c);
    var e := Exponent(r);
    var code := Encode(r, t).value;
    EncodeShapeAboveTen(r, t);
    assert ValueOf(code[2]) == e - 1 by {
      ColorOfInverse(e - 1);
    }
    assert e == NumDigits(c) - 3;
    TwoDigitColors(p);
  }

  /** The digit colours of a two-digit number read back as that number, the first one not black. */
  lemma TwoDigitColors(p: int)
    requires 10 <= p <= 99
    ensures 10 * ValueOf(Colors[p / 10]) + ValueOf(Colors[p % 10]) == p
    ensures Colors[p / 10] != Black && IsDigitColor(Colors[p / 10]) && IsDigitColor(Colors[p % 10])
  {
    ValueOfDigit(p / 10);
    ValueOfDigit(p % 10);
  }

  /**
    Every code the setter produces is canonical, and its band 4 decodes to the
    tolerance it was made with.
  */
  lemma EncodeCanonical(r: Number, t: real)
    requires Encode(r, t).Success?
    ensures Canonical(Encode(r, t).value)
    ensures ToleranceOf(Encode(r, t).value[3]) == Some(t)
  {
    var c := Centiohms(r);
    ToleranceCodeBijection(t);
    EncodeOutcome(r, t);
    if c >= 1000 {
      BandValuesAboveTen(r, t);
    } else {
      assert r == Float(c);
      EncodeBelowTen(c, t);
      if c >= 100 {
        ValueOfDigit(c / 100);
        ValueOfDigit((c / 10) % 10);
      } else {
        ValueOfDigit(c / 10);
        ValueOfDigit(c % 10);
      }
    }
  }

  /**
    The second-digit unit of a code made for r >= 10 ohms (c hundredths)
    divides off its two leading digits.
  */
  lemma UnitAboveTen(c: nat, code: seq<Color>)
    requires c >= 1000 && |code| >= 3
    requires 10 * ValueOf(code[0]) + ValueOf(code[1]) == LeadingTwo(c)
    requires ValueOf(code[2]) + 2 == NumDigits(c) - 2
    ensures Centiohms(CodeValue(code)) == (c / Unit(code[2])) * Unit(code[2])
  {
  }

  /** The same from 1 to 10 ohms, where the unit is 0.1 ohm (gold). */
  lemma UnitGold(c: int, t: real)
    requires 100 <= c < 1000 && ToleranceColor(t).Some?
    ensures var code := Encode(Float(c), t).value;
      var u := Unit(code[2]);
      Encode(Float(c), t).Success? && u == 10 && Centiohms(CodeValue(code)) == (c / u) * u
  {
    EncodeBelowTen(c, t);
    var code := Encode(Float(c), t).value;
    assert ValueOf(code[0]) == c / 100 && ValueOf(code[1]) == (c / 10) % 10 by {
      ValueOfDigit(c / 100);
      ValueOfDigit((c / 10) % 10);
    }
    HundredsViaTens(c);
  }

  /** The same below 1 ohm, where the unit is 0.01 ohm (silver) and nothing is lost. */
  lemma UnitSilver(c: int, t: real)
    requires 0 <= c < 100 && ToleranceColor(t).Some?
    ensures var code := Encode(Float(c), t).value;
      Encode(Float(c), t).Success? && Unit(code[2]) == 1 && Centiohms(CodeValue(code)) == c
  {
    EncodeBelowTen(c, t);
    var code := Encode(Float(c), t).value;
    assert ValueOf(code[0]) == c / 10 && ValueOf(code[1]) == c % 10 by {
      ValueOfDigit(c / 10);
      ValueOfDigit(c % 10);
    }
  }

  /**
    Decoding a produced code gives r cut down to its two leading significant
    digits: the decoded value is at most r and less than one unit of the
    second digit below it, and equal to r exactly when r is a whole number
    of those units.
  */
  lemma EncodeTruncates(r: Number, t: real)
    requires Encode(r, t).Success?
    ensures var code := Encode(r, t).value;
      var v := Centiohms(CodeValue(code));
      var u := Unit(code[2]);
      && v <= Centiohms(r) < v + u
      && (v == Centiohms(r) <==> Centiohms(r) % u == 0)
  {
    var c := Centiohms(r);
    var code := Encode(r, t).value;
    EncodeOutcome(r, t);
    if c >= 1000 {
      BandValuesAboveTen(r, t);
      UnitAboveTen(c, code);
    } else if c >= 100 {
      UnitGold(c, t);
    } else {
      UnitSilver(c, t);
      assert (c / 1) * 1 == c;
    }
    RoundDown(c, Unit(code[2]), Centiohms(CodeValue(code)));
  }

  /** RoundTrip for a digit multiplier: the decoded int has e = m + 1 decimal places above the units. */
  lemma {:induction false} RoundTripDigitMultiplier(code: seq<Color>)
    requires Canonical(code) && IsDigitColor(code[2])
    ensures CodeValue(code).Int? && Centiohms(CodeValue(code)) >= 1000
    ensures Encode(CodeValue(code), ToleranceOf(code[3]).value) == Success(code)
  {
    var t := ToleranceOf(code[3]).value;
    DigitColorAt(code[0]);
    DigitColorAt(code[1]);
    DigitColorAt(code[2]);
    var d1, d2, m := ValueOf(code[0]), ValueOf(code[1]), ValueOf(code[2]);
    assert code == [Colors[d1], Colors[d2], Colors[m], code[3]];
    var d := 10 * d1 + d2;
    assert 10 <= d <= 99 && d / 10 == d1 && d % 10 == d2;
    var r := CodeValue(code);
    var unit := Pow10(m + 2);
    assert Centiohms(r) == d * unit;
    TwoDigitScale(d, unit);
    assert Pow10(m + 3) == 10 * unit && Pow10(m + 4) == 100 * unit;
    EncodeAboveTen(r, t, m + 1);
    MulDivCancel(d, unit);
    assert Centiohms(r) / Pow10(m + 2) == d;
    assert ToleranceColor(t).value == code[3];
  }

  /** RoundTrip for a gold multiplier: the decoded float lies between 1 and 10 ohms. */
  lemma RoundTripGold(code: seq<Color>)
    requires Canonical(code) && code[2] == Gold
    ensures CodeValue(code).Float? && 100 <= Centiohms(CodeValue(code)) < 1000
    ensures Encode(CodeValue(code), ToleranceOf(code[3]).value) == Success(code)
  {
    var t := ToleranceOf(code[3]).value;
    DigitColorAt(code[0]);
    DigitColorAt(code[1]);
    var d1, d2 := ValueOf(code[0]), ValueOf(code[1]);
    var d := 10 * d1 + d2;
    assert code == [Colors[d1], Colors[d2], Gold, code[3]];
    assert CodeValue(code) == Float(10 * d);
    assert 100 <= 10 * d < 1000 && (10 * d) / 100 == d1 && ((10 * d) / 10) % 10 == d2 by {
      TenthsOfTenfold(d);
    }
    EncodeBelowTen(10 * d, t);
  }

  /** RoundTrip for a silver multiplier: the decoded float is below 1 ohm. */
  lemma RoundTripSilver(code: seq<Color>)
    requires Canonical(code) && code[2] == Silver
    ensures CodeValue(code).Float? && Centiohms(CodeValue(code)) < 100
    ensures Encode(CodeValue(code), ToleranceOf(code[3]).value) == Success(code)
  {
    var t := ToleranceOf(code[3]).value;
    DigitColorAt(code[0]);
    DigitColorAt(code[1]);
    var d1, d2 := ValueOf(code[0]), ValueOf(code[1]);
    var d := 10 * d1 + d2;
    assert code == [Colors[d1], Colors[d2], Silver, code[3]];
    assert d < 100 && d / 10 == d1 && d % 10 == d2;
    assert CodeValue(code) == Float(d);
    EncodeBelowTen(d, t);
    assert ToleranceColor(t).value == code[3];
  }

  /** A canonical code survives decoding (lines 134-136) and encoding again. */
  lemma RoundTrip(code: seq<Color>)
    requires Canonical(code)
    ensures Encode(CodeValue(code), ToleranceOf(code[3]).value) == Success(code)
  {
    if IsDigitColor(code[2]) {
      RoundTripDigitMultiplier(code);
    } else if code[2] == Gold {
      RoundTripGold(code);
    } else {
      RoundTripSilver(code);
    }
  }

  /**
    The round trip through the decode arithmetic holds for exactly the
    canonical codes: a code with a zero first digit and a gold or digit
    multiplier comes back in another form, or not at all.
  */
  lemma RoundTripExactly(code: seq<Color>, t: real)
    requires |code| == 4
    ensures Encode(CodeValue(code), t) == Success(code) <==>
      Canonical(code) && ToleranceOf(code[3]) == Some(t)
  {
    if Encode(CodeValue(code), t) == Success(code) {
      EncodeCanonical(CodeValue(code), t);
    }
    if Canonical(code) && ToleranceOf(code[3]) == Some(t) {
      RoundTrip(code);
    }
  }

  /** Encoding the decoded value of a produced code gives the same code back. */
  lemma EncodeIdempotent(r: Number, t: real)
    requires Encode(r, t).Success?
    ensures Encode(CodeValue(Encode(r, t).value), t) == Encode(r, t)
  {
    EncodeCanonical(r, t);
    RoundTrip(Encode(r, t).value);
  }

  /**
    Bands 1-3 depend on the resistance alone and band 4 on the tolerance alone:
    encoding the same resistance under another valid tolerance changes band 4 only.
  */
  lemma EncodeToleranceBand(r: Number, t: real, t': real)
    requires Encode(r, t).Success? && ToleranceColor(t').Some?
    ensures var code := Encode(r, t).value;
      Encode(r, t') == Success([code[0], code[1], code[2], ToleranceColor(t').value])
  {
  }

  /** From 1000 to 1999 ohms the code is brown, the hundreds digit, red. */
  lemma EncodeThousands(n: int, t: real)
    requires 10 <= n <= 19 && ToleranceColor(t).Some?
    ensures Encode(Int(100 * n), t) == Success([Brown, Colors[n - 10], Red, ToleranceColor(t).value])
  {
    assert Pow10(4) == 10000 && Pow10(5) == 100000 && Pow10(6) == 1000000;
    EncodeAboveTen(Int(100 * n), t, 3);
    assert Centiohms(Int(100 * n)) / Pow10(4) == n;
  }

  /** The test vectors of resistor/test.py from 1000 to 1900 ohms (default tolerance 0.05). */
  lemma EncodeExamples()
    ensures Encode(Int(1000), 0.05) == Success([Brown, Black, Red, Gold])
    ensures Encode(Int(1100), 0.05) == Success([Brown, Brown, Red, Gold])
    ensures Encode(Int(1200), 0.05) == Success([Brown, Red, Red, Gold])
    ensures Encode(Int(1300), 0.05) == Success([Brown, Orange, Red, Gold])
    ensures Encode(Int(1400), 0.05) == Success([Brown, Yellow, Red, Gold])
    ensures Encode(Int(1500), 0.05) == Success([Brown, Green, Red, Gold])
    ensures Encode(Int(1600), 0.05) == Success([Brown, Blue, Red, Gold])
    ensures Encode(Int(1700), 0.05) == Success([Brown, Purple, Red, Gold])
    ensures Encode(Int(1800), 0.05) == Success([Brown, Gray, Red, Gold])
    ensures Encode(Int(1900), 0.05) == Success([Brown, White, Red, Gold])
  {
    EncodeThousands(10, 0.05);
    EncodeThousands(11, 0.05);
    EncodeThousands(12, 0.05);
    EncodeThousands(13, 0.05);
    EncodeThousands(14, 0.05);
    EncodeThousands(15, 0.05);
    EncodeThousands(16, 0.05);
    EncodeThousands(17, 0.05);
    EncodeThousands(18, 0.05);
    EncodeThousands(19, 0.05);
  }

  /** 10^e ohms, for 1 <= e <= 10, is brown, black and the colour of e - 1. */
  lemma EncodePowerOfTen(r: Number, e: int, t: real)
    requires 1 <= e <= 10 && Centiohms(r) == Pow10(e + 2) && ToleranceColor(t).Some?
    ensures Encode(r, t) == Success([Brown, Black, Colors[e - 1], ToleranceColor(t).value])
  {
    var u := Pow10(e + 1);
    assert Centiohms(r) / u == 10 by {
      assert Pow10(e + 2) == 10 * u;
      MulDivCancel(10, u);
    }
    assert Centiohms(r) < Pow10(e + 3) by {
      assert Pow10(e + 3) == 10 * Pow10(e + 2);
    }
    EncodeAboveTen(r, t, e);
    assert Colors[10 / 10] == Brown && Colors[10 % 10] == Black;
  }

  /** The test vectors of resistor/test.py at the powers of ten from 10 to 10^6 ohms. */
  lemma EncodeExamplesPowers()
    ensures Encode(Int(10), 0.05) == Success([Brown, Black, Black, Gold])
    ensures Encode(Int(100), 0.05) == Success([Brown, Black, Brown, Gold])
    ensures Encode(Int(10000), 0.05) == Success([Brown, Black, Orange, Gold])
    ensures Encode(Int(100000), 0.05) == Success([Brown, Black, Yellow, Gold])
    ensures Encode(Int(1000000), 0.05) == Success([Brown, Black, Green, Gold])
  {
    assert Pow10(3) == 1000 && Pow10(4) == 10000 && Pow10(6) == 1000000;
    assert Pow10(7) == 10000000 && Pow10(8) == 100000000;
    EncodePowerOfTen(Int(10), 1, 0.05);
    EncodePowerOfTen(Int(100), 2, 0.05);
    EncodePowerOfTen(Int(10000), 4, 0.05);
    EncodePowerOfTen(Int(100000), 5, 0.05);
    EncodePowerOfTen(Int(1000000), 6, 0.05);
  }

  /** Examples below 10 ohms: 0.1 reads as "0.10", 4.7 as units and tenths, and an int 4 fails. */
  lemma EncodeExamplesBelowTen()
    ensures Encode(Float(10), 0.1) == Success([Brown, Black, Silver, Silver])
    ensures Encode(Float(5), 0.05) == Success([Black, Green, Silver, Gold])
    ensures Encode(Float(470), 0.05) == Success([Yellow, Purple, Gold, Gold])
    ensures Encode(Int(4), 0.05) == Failure(IndexError)
  {
    EncodeBelowTen(10, 0.1);
    EncodeBelowTen(5, 0.05);
    EncodeBelowTen(470, 0.05);
  }

  // ---------------------------------------------------------------------
  // The '{:e}' exponent

  /**
    As written, line 89 takes the exponent after rounding to 7 significant
    digits: 99999999 ohms formats as 1.000000e+08, so band 3 comes out purple
    and the code decodes to 990000000 ohms, more than nine times the value;
    with the exact exponent the code is white-white-blue (99000000 ohms).
  */
  lemma FormattedExponentOvershoots()
    ensures FormattedExponent(Int(99999999)) == 8 && Exponent(Int(99999999)) == 7
    ensures EncodeAsWritten(Int(99999999), 0.05) == Success([White, White, Purple, Gold])
    ensures Centiohms(CodeValue([White, White, Purple, Gold])) > 9 * Centiohms(Int(99999999))
    ensures Encode(Int(99999999), 0.05) == Success([White, White, Blue, Gold])
  {
    var c := 9999999900;
    assert Centiohms(Int(99999999)) == c;
    assert Pow10(9) == 1000000000 && Pow10(10) == 10000000000;
    NumDigitsOfRange(c, 9);
    assert Pow10(2) == 100 && Pow10(3) == 1000 && Pow10(7) == 10000000 && Pow10(8) == 100000000;
    assert (c + 5 * Pow10(2)) / Pow10(3) == 10000000;
    assert LeadingTwo(c) == 99;
    assert Pow10(9) == 1000000000;
  }

  /**
    A value with two significant digits, D > 7 digits long in hundredths, does
    not carry when rounded to 7 significant digits.
  */
  lemma NoCarryAtTwoDigits(c: nat, q: nat, D: nat)
    requires D > 7 && c == q * Pow10(D - 2) && c < Pow10(D)
    ensures (c + 5 * Pow10(D - 8)) / Pow10(D - 7) < Pow10(7)
  {
    var unit := Pow10(D - 2);
    assert Pow10(D) == 100 * unit by {
      assert Pow10(D) == 10 * Pow10(D - 1);
    }
    assert q <= 99 by {
      if q >= 100 {
        MulMonotone(100, q, unit);
        assert false;
      }
    }
    MulMonotone(q, 99, unit);
    assert 5 * Pow10(D - 8) < Pow10(D - 7) <= unit by {
      assert Pow10(D - 7) == 10 * Pow10(D - 8);
      Pow10Monotone(D - 7, D - 2);
    }
    Pow10Add(7, D - 7);
    DivBetween(c + 5 * Pow10(D - 8), Pow10(D - 7), 0, Pow10(7));
  }

  /** A positive d * 10^m hundredths with d <= 99 has two significant digits, so it does not carry. */
  lemma TwoDigitValueNoCarry(c: nat, d: int, m: int)
    requires -2 <= m && d <= 99 && c == d * Pow10(m + 2) && c >= 1 && NumDigits(c) > 7
    ensures (c + 5 * Pow10(NumDigits(c) - 8)) / Pow10(NumDigits(c) - 7) < Pow10(7)
  {
    var D := NumDigits(c);
    ScaledTwoDigits(c, d, Pow10(m + 2));
    assert Pow10(m + 4) == 100 * Pow10(m + 2);
    NumDigitsAtMost(c, m + 4);
    var k := m + 4 - D;
    Regroup(d, k, D - 2);
    NumDigitsBounds(c);
    NoCarryAtTwoDigits(c, d * Pow10(k), D);
  }

  lemma NumDigitsAtMost(c: nat, n: nat)
    requires 1 <= c < Pow10(n)
    ensures NumDigits(c) <= n
  {
    NumDigitsBounds(c);
    if NumDigits(c) > n {
      Pow10Monotone(n, NumDigits(c) - 1);
    }
  }

  lemma ScaledTwoDigits(c: nat, d: int, unit: nat)
    requires d <= 99 && unit >= 1 && c == d * unit && c >= 1
    ensures 1 <= d && c < 100 * unit
  {
    MulMonotone(d, 99, unit);
  }

  lemma Regroup(d: int, a: nat, b: nat)
    ensures d * Pow10(a + b) == (d * Pow10(a)) * Pow10(b)
  {
    Pow10Add(a, b);
  }

  /**
    A value the `code` setter decodes has two significant digits, so the
    exponent `'{:e}'` gives it is the exact one and the as-written encoding
    agrees with `Encode`.
  */
  lemma DecodedValueNoCarry(code: seq<Color>, t: real)
    requires |code| >= 3 && Centiohms(CodeValue(code)) >= 0
    ensures FormattedExponent(CodeValue(code)) == Exponent(CodeValue(code))
    ensures EncodeAsWritten(CodeValue(code), t) == Encode(CodeValue(code), t)
  {
    var r := CodeValue(code);
    var c := Centiohms(r);
    if c >= 1 && NumDigits(c) > 7 {
      TwoDigitValueNoCarry(c, 10 * ValueOf(code[0]) + ValueOf(code[1]), ValueOf(code[2]));
    }
    assert FormattedExponent(r) == Exponent(r);
  }

  /** Below 10^5 ohms (at most 7 digits in hundredths) the written and the exact exponents agree. */
  lemma EncodeAsWrittenAgrees(r: Number, t: real)
    requires Centiohms(r) < Pow10(7)
    ensures EncodeAsWritten(r, t) == Encode(r, t)
  {
    var c := Centiohms(r);
    if 1 <= c {
      NumDigitsBounds(c);
      if NumDigits(c) > 7 {
        Pow10Monotone(7, NumDigits(c) - 1);
        assert false;
      }
    }
  }
}
