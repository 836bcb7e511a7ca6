# Resistor colour-code codec

A verified Dafny model of the `Resistor` class of `resistor.py`. The class
keeps a resistance, a tolerance, the four-band colour code and the bounds
`r * (1 - t)` and `r * (1 + t)`, and it converts between a value and its code:

- the `resistance` setter encodes a value as two significant-digit bands, a
  multiplier band and a tolerance band;
- the `code` setter decodes four bands back to a value and assigns it through
  the `resistance` setter;
- the `tolerance` setter only stores the tolerance.

Files:

- `results.dfy` (`Results`): `Option` and `Result`.
- `colorcode.dfy` (`ColorCode`): the lookup tables `_colors`, `_color_code` and
  `_tolerance_code`, the two standard-value series, and their bijection and
  ordering lemmas.
- `decimal.dfy` (`Decimal`): powers of ten and decimal digit counts.
- `codec.dfy` (`Codec`): the arithmetic of the two setters.
  - `Encode` covers lines 84-108 with the exact exponent `floor(log10 r)`.
  - `EncodeAsWritten` uses the exponent `'{:e}'` really yields.
  - `CodeValue` covers lines 134-136.
  - The lemmas cover the error cases, digit truncation, canonical codes, the
    round trip and the test vectors.
- `resistor.dfy` (`Resistors`): the `Resistor` class. Its five fields are
  assigned by the constructor and the three setters, in the order the source
  assigns them, including the updates a setter makes before it raises. The
  codes they store are those of `Encode`, with the exact exponent (see
  "## Left out").

How values are represented:

- A resistance is a `Number`: either `Int(ohms)`, or `Float(centiohms)`, a float
  that is an exact multiple of 0.01 ohm. The two are kept apart because `str`
  of an int has no decimal point, so an int below 10 ohms raises IndexError at
  line 103 (or, for 0, at line 106, after the slice at line 100 comes out empty).
- A float's digits are ordinary integer division and remainder on its
  hundredths.
- The Python exceptions are the values of `Error`.

Quirks of resistor.py the model keeps:

- The `tolerance` setter recomputes nothing.
- The `code` setter forms band 4 and the bounds from the tolerance in force
  before the call, because the resistance is assigned before the tolerance
  (lines 136-137).
- A failing setter leaves a partly updated object.
- The code setter does not validate bands. Gold or silver in band 1 or 2 is
  decoded as -1 or -2, and that can give a negative value (ValueError).
- Zero is not rejected. The float 0.0 encodes as black-black-silver; the int 0
  raises IndexError.
- `encode(decode(code)) == code` holds exactly for the canonical codes
  (`Codec.RoundTripExactly`), not for every well-formed code.

## Model

| member | source | states |
|---|---|---|
| ColorCode.ColorOf | resistor.py:41-52 | integer keys -2..9 have a colour and no other key does; digit k maps to position k of `_colors` |
| ColorCode.ValueOf | resistor.py:53-64 | every colour name has a value in -2..9, and looking that value up gives the colour back |
| ColorCode.ColorCodeBijection | resistor.py:34-64 | `_color_code` is one-to-one both ways, agrees with the order of `_colors`, and its digit colours are exactly those with non-negative values |
| ColorCode.ValueOfDigit | resistor.py:34-35 | the colour at position k of `_colors` has value k, is a digit colour, and is black exactly when k = 0 |
| ColorCode.DigitColorAt | resistor.py:34-64 | every non-gold, non-silver colour sits in `_colors` at the position of its value |
| ColorCode.ToleranceColor | resistor.py:37 | only 0.05 and 0.1 have a tolerance colour, and it is gold or silver |
| ColorCode.ToleranceOf | resistor.py:38 | only gold and silver have a tolerance, and it maps back to the same colour |
| ColorCode.ToleranceCodeBijection | resistor.py:37-38 | `_tolerance_code` is a bijection: 0.05 with gold and 0.1 with silver, both ways |
| ColorCode.StandardDigits | resistor.py:20-32 | the 5% list has 23 pairs and the 10% list 12, all pairs of digits with a non-zero first digit |
| ColorCode.FivePercentSeries | resistor.py:20-27 | the 5% mantissas strictly increase |
| ColorCode.TenPercentSeries | resistor.py:29-32 | the 10% mantissas strictly increase |
| ColorCode.TenWithinFive | resistor.py:20-32 | every 10% standard value is also a 5% standard value |
| Codec.Exponent | resistor.py:89 | 10^e <= r < 10^(e+1) for every positive r (floor of log10) |
| Codec.FormattedExponent | resistor.py:89 | the exponent of `'{:e}'` is the exact one or one more, and is the exact one whenever r has at most 7 digits in hundredths (below 10^5 ohms) |
| Codec.Bands | resistor.py:87-108 | a produced code has four bands, band 4 the colour of the tolerance; the only failures are KeyError and IndexError; the bands themselves are described by Codec.EncodeAboveTen, Codec.EncodeBelowTen and Codec.EncodeShapeAboveTen |
| Codec.Encode | resistor.py:84-108 | ValueError exactly for a negative r; a produced code has four bands with band 4 the tolerance colour; the full behaviour is stated by Codec.EncodeOutcome, Codec.EncodeAboveTen, Codec.EncodeBelowTen and Codec.EncodeTruncates |
| Codec.EncodeAsWritten | resistor.py:84-108 | the same outline with line 89's `'{:e}'` exponent; where it departs from Codec.Encode is stated by Codec.FormattedExponentOvershoots, and where it agrees by Codec.DecodedValueNoCarry and Codec.EncodeAsWrittenAgrees |
| Codec.LeadingTwo | resistor.py:93 | `str(r)[:2]` is a two-digit number p with p * 10^k <= r < (p+1) * 10^k |
| Codec.CodeValue | resistor.py:134-136 | the decoded value is (10*d1 + d2) * 10^m in hundredths, for the `_color_code` values d1, d2, m of bands 1-3 |
| Codec.EncodeAboveTen | resistor.py:92-94 | for 10^e <= r < 10^(e+1), 1 <= e <= 10: bands 1-2 are the two leading digits of r, truncated, and band 3 is the colour of e - 1 |
| Codec.EncodeBelowTen | resistor.py:95-104 | below 1 ohm, silver and the tenths and hundredths digits (0.1 reads as brown-black); from 1 to 10 ohms, gold and the units and tenths digits; an int below 10 raises IndexError |
| Codec.MultiplierInRange | resistor.py:94 | for r >= 10 the multiplier colour exists exactly when r < 10^11 ohms |
| Codec.EncodeOutcome | resistor.py:84-108 | ValueError for a negative r, IndexError for an int below 10, KeyError from 10^11 ohms up or for a tolerance other than 0.05/0.1, and success exactly in the remaining cases |
| Codec.EncodeShapeAboveTen | resistor.py:92-107 | a code made for r >= 10 is the colours of the two leading digits, of exponent - 1 and of the tolerance |
| Codec.BandValuesAboveTen | resistor.py:92-108 | for r >= 10, bands 1-2 read back as the two leading digits, band 3 as the number of digits of r in hundredths minus 4 (in ohms: minus 2), band 1 is not black, band 4 is the tolerance colour |
| Codec.EncodeCanonical | resistor.py:92-108 | every produced code is canonical, and its band 4 decodes to the tolerance it was made with |
| Codec.UnitGold | resistor.py:102-104 | from 1 to 10 ohms the decoded value is r cut down to tenths |
| Codec.UnitSilver | resistor.py:96-101 | below 1 ohm the decoded value is r itself |
| Codec.EncodeTruncates | resistor.py:92-104 | decoding a produced code gives v <= r < v + unit, with v = r exactly when the unit of the second band divides r |
| Codec.RoundTripDigitMultiplier | resistor.py:133-136 | a canonical code with a digit multiplier decodes to an int of at least 10 ohms that encodes back to the same code |
| Codec.RoundTripGold | resistor.py:133-136 | a canonical code with a gold multiplier decodes to a float in [1, 10) ohms that encodes back to it |
| Codec.RoundTripSilver | resistor.py:133-136 | a canonical code with a silver multiplier decodes to a float below 1 ohm that encodes back to it |
| Codec.RoundTrip | resistor.py:133-136 | every canonical code encodes back to itself after decoding, under the tolerance of its band 4 |
| Codec.RoundTripExactly | resistor.py:133-136 | a four-band code survives decode then encode under t if and only if it is canonical and its band 4 is the colour of t |
| Codec.EncodeIdempotent | resistor.py:134-136 | encoding the decoded value of a produced code gives the same code |
| Codec.EncodeToleranceBand | resistor.py:108 | a different valid tolerance changes band 4 only |
| Codec.EncodeThousands | resistor.py:92-94 | 1000-1999 ohms in steps of 100 encode as brown, the hundreds digit, red |
| Codec.EncodeExamples | resistor/test.py:35-44 | the ten test vectors from 1000 to 1900 ohms |
| Codec.EncodePowerOfTen | resistor.py:92-94 | 10^e ohms encodes as brown, black, colour of e - 1 |
| Codec.EncodeExamplesPowers | resistor/test.py:45-49 | the test vectors 10, 100, 10^4, 10^5 and 10^6 ohms |
| Codec.EncodeExamplesBelowTen | resistor.py:96-104 | 0.1 -> brown-black-silver, 0.05 -> black-green-silver, 4.7 -> yellow-purple-gold, int 4 -> IndexError |
| Codec.FormattedExponentOvershoots | resistor.py:89 | as written, 99999999 ohms gets exponent 8 and the code white-white-purple, which decodes to more than nine times the value |
| Codec.DecodedValueNoCarry | resistor.py:89 | for every value the `code` setter decodes (lines 134-136), the `'{:e}'` exponent is the exact one and the as-written encoding equals `Encode` |
| Codec.EncodeAsWrittenAgrees | resistor.py:89 | below 10^5 ohms the written and the exact exponent give the same result |
| Resistors.InitialTolerance | resistor.py:143 | `tolerance or 0.05`: a given non-zero tolerance is kept, a missing or zero one becomes the default 0.05 |
| Resistors.MinBound | resistor.py:111 | r * (1 - t) is at most r for t >= 0 and not negative for t <= 1; Resistors.BoundsBracket states the distance to r |
| Resistors.MaxBound | resistor.py:112 | r * (1 + t) is at least r for t >= 0; Resistors.BoundsBracket states the distance to r |
| Resistors.BoundsBracket | resistor.py:111-112 | for t in {0.05, 0.1}, min <= r <= max and both bounds lie t * r from r |
| Resistors.Resistor.constructor | resistor.py:139-143 | code and bounds are None, no resistance, tolerance as `tolerance or 0.05` |
| Resistors.Resistor.New | resistor.py:139-145 | without a resistance, an empty resistor; with one, the setter's exception, or a consistent resistor holding that resistance and its code |
| Resistors.Resistor.SetResistance | resistor.py:83-112 | ValueError with nothing changed for a negative r; otherwise r is stored, then either the encoding error with code and bounds untouched, or the code and bounds of r and the current tolerance, leaving the resistor consistent with min <= r <= max |
| Resistors.Resistor.SetTolerance | resistor.py:118-120 | only the tolerance changes; a consistent resistor becomes inconsistent when the tolerance colour changes |
| Resistors.Resistor.SetCode | resistor.py:126-137 | TypeError or ValueError with nothing changed for a non-tuple or a wrong length; otherwise the bands are stored and decoded, the resistance setter runs under the old tolerance, then the tolerance is read from band 4 (KeyError if absent); a canonical code round-trips exactly when its band 4 matches the old tolerance, otherwise the resistor ends inconsistent |

## Left out

- `to_image` (resistor.py:153-180) and `package_directory` (resistor.py:1-5): image drawing and file paths are I/O.
- `__str__` (resistor.py:147-151): it only joins Python string reprs.
- The read-only property accessors (resistor.py:66-80, 114-116, 122-124). They return a field unchanged; in the model the fields are read directly.
- SI-prefix formatting and the `Resistance` class that resistor/test.py:4-30 exercises. That class is not part of this model (it is not in resistor.py), and setup.py is packaging only.
- Binary floating point. The model assumes a float is an exact number of hundredths of an ohm. It also takes the products `d * 10**-1` and `d * 10**-2` of the code setter as exact. A binary product just below the intended value would print one digit lower. Resistors.MinBound, Resistors.MaxBound and Resistors.BoundsBracket compute the bounds `r*(1-t)` and `r*(1+t)` of lines 111-112 in exact reals, while the source computes them in binary floats, where 0.05 and 0.1 are not exact; the model's bounds can differ from the source's in the last bits.
- Floats with more than two decimals, and floats below 1e-4 that `str` prints in scientific notation: the model has no such values. Floats from 1e16 ohms up, which `str` also prints in scientific notation, do exist in the model (`Float(c)` with c >= 10^18); for them the source and `Codec.Encode` both raise KeyError at line 94 before any digits are read.
- Colour names outside the twelve known ones. The `code` setter raises KeyError for them, at lines 134-135 for bands 1-3 and at line 137 for band 4 (after the `resistance` setter has run); they cannot be written in the model's `Color` type.
- Codec.FormattedExponent: rounds a decimal tie up, as Python's half-to-even rounding also does for exactly representable values (99999995 formats as 1.000000e+08, the even neighbour). A float at a decimal tie is, however, often stored just below it: 999999.95 is held as 999999.9499999..., which `'{:e}'` formats as 9.999999e+05 (exponent 5), while the model gives exponent 6, so `Codec.EncodeAsWritten` says white-white-green where line 94 picks white-white-yellow.
- Resistors.Resistor.SetResistance (and Resistors.Resistor.New and Resistors.Resistor.Consistent, which go through it): the code is that of `Codec.Encode`, with the exact exponent floor(log10 r), not the `'{:e}'` exponent of line 89. The two differ when rounding r to 7 significant digits carries into the next power of ten (99999999 ohms: the source stores white-white-purple, the model white-white-blue); `Codec.EncodeAsWritten` and `Codec.FormattedExponentOvershoots` state the source's behaviour there. The `code` setter is not affected: the values it decodes have two significant digits and never carry (`Codec.DecodedValueNoCarry`).
- Codec.EncodeOutcome (and Resistors.Resistor.SetResistance and Resistors.Resistor.New, which pass its error on): an int that rounds to 2^1024 or more as a float (from 2^1024 - 2^970 ohms) makes `'{:e}'` at line 89 raise OverflowError, and an int of more than 4300 digits already makes `str(r)` at line 87 raise ValueError (Python 3.11 and later); the model reports KeyError for both, as for every value from 10^11 ohms up. `Error` has no OverflowError.
- Resistors.Resistor.New: it runs Resistors.Resistor.SetResistance, so it stores the exact-exponent code of `Codec.Encode` where line 89's `'{:e}'` exponent carries (99999999 ohms), and reports KeyError for ints that round to 2^1024 or more as a float, where the source raises OverflowError (or ValueError from `str` past 4300 digits).
- Resistors.Resistor.SetCode: the `type(code) is not tuple` test (line 128) is modelled as a `CodeArgument` that is a tuple of colours or not a tuple. A tuple holding non-colours is not representable.
- The mid-update exception in the `resistance` setter is modelled as an error result. A Python caller would see the exception propagate; the model leaves the same fields assigned.

## Findings

| source | as written | input that shows it | evidently intended | confidence | as-written member | corrected member |
|---|---|---|---|---|---|---|
| resistor.py:89 | the exponent is read from `'{:e}'.format(r)`, which first rounds r to 7 significant digits, so a value just under a power of ten gets the next exponent | r = 99999999 formats as 1.000000e+08; band 3 is purple and the code white-white-purple decodes to 990000000 ohms | the exponent of r itself (floor of log10), as for every test vector, giving white-white-blue, the truncation of r | medium; not executed | Codec.FormattedExponentOvershoots | Codec.EncodeTruncates |
