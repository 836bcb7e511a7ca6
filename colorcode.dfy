/**
  The fixed lookup tables of the `Resistor` class: the ten digit colours, the
  two-way colour table (`_color_code`), the two-way tolerance table
  (`_tolerance_code`) and the two standard-value series.
  Python keeps each two-way table as one dictionary with mixed keys; here each
  direction is its own total (or partial, as `Option`) function.
*/
module ColorCode {
  import opened Results

  datatype Color =
    | Black | Brown | Red | Orange | Yellow | Green | Blue | Purple | Gray | White
    | Gold | Silver

  /** `_colors`: the digit colours, position k holding the colour of digit k. */
  const Colors: seq<Color> :=
    [Black, Brown, Red, Orange, Yellow, Green, Blue, Purple, Gray, White]

  /**
    `_color_code[k]` for an integer key: the digits 0..9, and the multiplier
    markers -1 (gold) and -2 (silver). `None` stands for the KeyError any other
    key raises.
  */
  function ColorOf(k: int): (c: Option<Color>)
    ensures c.Some? <==> -2 <= k <= 9
    ensures 0 <= k <= 9 ==> c == Some(Colors[k])
  {
    match k
    case 0 => Some(Black)
    case 1 => Some(Brown)
    case 2 => Some(Red)
    case 3 => Some(Orange)
    case 4 => Some(Yellow)
    case 5 => Some(Green)
    case 6 => Some(Blue)
    case 7 => Some(Purple)
    case 8 => Some(Gray)
    case 9 => Some(White)
    case -1 => Some(Gold)
    case -2 => Some(Silver)
    case _ => None
  }

  /** `_color_code[name]` for a colour name: every colour has an entry. */
  function ValueOf(c: Color): (k: int)
    ensures -2 <= k <= 9
    ensures ColorOf(k) == Some(c)
  {
    match c
    case Black => 0
    case Brown => 1
    case Red => 2
    case Orange => 3
    case Yellow => 4
    case Green => 5
    case Blue => 6
    case Purple => 7
    case Gray => 8
    case White => 9
    case Gold => -1
    case Silver => -2
  }

  /** A colour that stands for an ordinary digit (not gold or silver). */
  predicate IsDigitColor(c: Color) {
    c != Gold && c != Silver
  }

  /** The integer half of `_color_code` maps back to the key it came from. */
  lemma ColorOfInverse(k: int)
    requires -2 <= k <= 9
    ensures ValueOf(ColorOf(k).value) == k
  {
  }

  /** Looking up the colour at position k of `_colors` gives back k. */
  lemma ValueOfDigit(k: int)
    requires 0 <= k <= 9
    ensures ValueOf(Colors[k]) == k && IsDigitColor(Colors[k])
    ensures k != 0 <==> Colors[k] != Black
  {
  }

  /** A digit colour sits in `_colors` at the position of its digit. */
  lemma DigitColorAt(c: Color)
    requires IsDigitColor(c)
    ensures 0 <= ValueOf(c) <= 9 && Colors[ValueOf(c)] == c
  {
  }

  /** `_color_code` is one-to-one in both directions, and its digit part agrees with `_colors`. */
  lemma {:induction false} ColorCodeBijection()
    ensures forall k :: -2 <= k <= 9 ==> ColorOf(k).Some? && ValueOf(ColorOf(k).value) == k
    ensures forall c: Color :: ColorOf(ValueOf(c)) == Some(c)
    ensures forall c: Color, d: Color :: ValueOf(c) == ValueOf(d) ==> c == d
    ensures forall k :: 0 <= k <= 9 ==> Colors[k] == ColorOf(k).value && ValueOf(Colors[k]) == k
    ensures forall c: Color :: IsDigitColor(c) <==> 0 <= ValueOf(c)
  {
    forall k | -2 <= k <= 9
      ensures ColorOf(k).Some? && ValueOf(ColorOf(k).value) == k
    {
      ColorOfInverse(k);
    }
  }

  /** `_tolerance_code[t]` for a tolerance fraction; `None` is the KeyError for any other value. */
  function ToleranceColor(t: real): (c: Option<Color>)
    ensures c.Some? <==> t == 0.05 || t == 0.1
    ensures c.Some? ==> !IsDigitColor(c.value)
  {
    if t == 0.1 then Some(Silver)
    else if t == 0.05 then Some(Gold)
    else None
  }

  /** `_tolerance_code[name]` for a colour; only gold and silver have entries. */
  function ToleranceOf(c: Color): (t: Option<real>)
    ensures t.Some? <==> !IsDigitColor(c)
    ensures t.Some? ==> ToleranceColor(t.value) == Some(c)
  {
    match c
    case Silver => Some(0.1)
    case Gold => Some(0.05)
    case _ => None
  }

  /** `_tolerance_code` is a bijection between {0.05, 0.1} and {gold, silver}. */
  lemma ToleranceCodeBijection(t: real)
    requires ToleranceColor(t).Some?
    ensures ToleranceOf(ToleranceColor(t).value) == Some(t)
    ensures t == 0.05 <==> ToleranceColor(t) == Some(Gold)
    ensures t == 0.1 <==> ToleranceColor(t) == Some(Silver)
  {
  }

  /**
    `_five_pct_standards` as (digit1, digit2) pairs, exactly as the source lists
    it: the E24 series without 7.5, so 23 entries rather than 24.
  */
  const FivePercentStandards: seq<(int, int)> :=
    [(1, 0), (1, 1), (1, 2), (1, 3), (1, 5), (1, 6),
     (1, 8), (2, 0), (2, 2), (2, 4), (2, 7), (3, 0),
     (3, 3), (3, 6), (3, 9), (4, 3), (4, 7), (5, 1),
     (5, 6), (6, 2), (6, 8), (8, 2), (9, 1)]

  /** `_ten_pct_standards`: the E12 series as (digit1, digit2) pairs. */
  const TenPercentStandards: seq<(int, int)> :=
    [(1, 0), (1, 2), (1, 5), (1, 8), (2, 2), (2, 7),
     (3, 3), (3, 9), (4, 7), (5, 6), (6, 8), (8, 2)]

  /** Two-digit mantissa of a standard pair. */
  function Mantissa(p: (int, int)): int {
    10 * p.0 + p.1
  }

  /** The mantissas of s rise strictly from each pair to the next. */
  predicate AdjacentIncreasing(s: seq<(int, int)>) {
    forall i :: 0 <= i < |s| - 1 ==> Mantissa(s[i]) < Mantissa(s[i + 1])
  }

  /** Every pair of s is a pair of digits with a non-zero first digit. */
  predicate DigitPairs(s: seq<(int, int)>) {
    forall i :: 0 <= i < |s| ==> 1 <= s[i].0 <= 9 && 0 <= s[i].1 <= 9
  }

  /** Rising from each pair to the next makes the whole series strictly increasing. */
  lemma {:induction false} IncreasingSeries(s: seq<(int, int)>)
    requires AdjacentIncreasing(s)
    ensures forall i, j :: 0 <= i < j < |s| ==> Mantissa(s[i]) < Mantissa(s[j])
  {
    if |s| > 1 {
      var tail := s[1..];
      assert AdjacentIncreasing(tail) by {
        forall i | 0 <= i < |tail| - 1
          ensures Mantissa(tail[i]) < Mantissa(tail[i + 1])
        {
          assert tail[i] == s[i + 1] && tail[i + 1] == s[i + 2];
        }
      }
      IncreasingSeries(tail);
      forall i, j | 0 <= i < j < |s|
        ensures Mantissa(s[i]) < Mantissa(s[j])
      {
        if i > 0 {
          assert s[i] == tail[i - 1] && s[j] == tail[j - 1];
        } else if j > 1 {
          assert s[1] == tail[0] && s[j] == tail[j - 1];
        }
      }
    }
  }

  /** Both tables hold 23 and 12 pairs of digits, each with a non-zero first digit. */
  lemma StandardDigits()
    ensures |FivePercentStandards| == 23 && DigitPairs(FivePercentStandards)
    ensures |TenPercentStandards| == 12 && DigitPairs(TenPercentStandards)
  {
  }

  /** `_five_pct_standards` lists its mantissas in increasing order. */
  lemma FivePercentSeries()
    ensures forall i, j :: 0 <= i < j < |FivePercentStandards| ==>
      Mantissa(FivePercentStandards[i]) < Mantissa(FivePercentStandards[j])
  {
    assert AdjacentIncreasing(FivePercentStandards);
    IncreasingSeries(FivePercentStandards);
  }

  /** `_ten_pct_standards` lists its mantissas in increasing order. */
  lemma TenPercentSeries()
    ensures forall i, j :: 0 <= i < j < |TenPercentStandards| ==>
      Mantissa(TenPercentStandards[i]) < Mantissa(TenPercentStandards[j])
  {
    assert AdjacentIncreasing(TenPercentStandards);
    IncreasingSeries(TenPercentStandards);
  }

  /** Every 10% standard value is also in the 5% list. */
  lemma TenWithinFive()
    ensures forall p :: p in TenPercentStandards ==> p in FivePercentStandards
  {
  }
}
