/** The timeline widget: a text field holding `inputValue`, a slider and
    three quick-jump buttons, all reporting a year to the parent through
    `onYearChange`, and an era label chosen from the year. */
module Timeline {
  import opened JsValues
  import opened JsStrings
  import opened JsNumbers

  const MinYear: int := 1000
  const MaxYear: int := 2025

  /** The years of the quick-jump buttons, in display order. */
  const QuickJumpYears: seq<int> := [1000, 1500, 2000]

  /** The year a submit commits: `parseInt(inputValue)` when it is a number in
      [1000, 2025], otherwise none. */
  function CommittedYear(inputValue: string): (r: Option<int>)
    ensures r.Some? <==> ParseInt(inputValue).Some? && MinYear <= ParseInt(inputValue).value <= MaxYear
    ensures r.Some? ==> r == ParseInt(inputValue)
  {
    var parsed := ParseInt(inputValue);
    if parsed.Some? && parsed.value >= MinYear && parsed.value <= MaxYear then parsed else None
  }

  /** The component state: the `year` prop owned by the parent and the
      `inputValue` state of the text field. */
  class YearInput {
    var year: int
    var inputValue: string

    /** Mounting: the field starts as `year.toString()`. */
    constructor (year: int)
      ensures this.year == year && inputValue == NumberToString(year)
      ensures ParseInt(inputValue) == Some(year)
    {
      this.year := year;
      inputValue := NumberToString(year);
      ParseIntRoundTrip(year);
    }

    /** `handleSliderChange(values)`: report `values[0]` and show it in the
        field; the slider always supplies its single thumb's value. */
    method SliderChange(values: seq<int>) returns (reported: int)
      requires |values| >= 1
      modifies this`inputValue
      ensures reported == values[0]
      ensures inputValue == NumberToString(reported)
      ensures ParseInt(inputValue) == Some(reported)
    {
      var newYear := values[0];
      reported := newYear;
      inputValue := NumberToString(newYear);
      ParseIntRoundTrip(newYear);
    }

    /** `handleInputChange`: typing replaces the field and reports nothing. */
    method InputChange(typed: string)
      modifies this`inputValue
      ensures inputValue == typed
    {
      inputValue := typed;
    }

    /** `handleInputSubmit` (on blur): commit the parsed year when it
        is in range and leave the text as typed; otherwise report nothing and
        reset the field to the current year. */
    method InputSubmit() returns (reported: Option<int>)
      modifies this`inputValue
      ensures reported == CommittedYear(old(inputValue))
      ensures reported.Some? ==> inputValue == old(inputValue)
      ensures reported.None? ==> inputValue == NumberToString(year)
    {
      var numValue := ParseInt(inputValue);
      if numValue.Some? && numValue.value >= 1000 && numValue.value <= 2025 {
        reported := numValue;
      } else {
        reported := None;
        inputValue := NumberToString(year);
      }
    }

    /** `handleKeyPress`: only the Enter key submits. The component defines
        this handler but attaches it to nothing, so it is modelled as written. */
    method KeyPress(key: string) returns (reported: Option<int>)
      modifies this`inputValue
      ensures key != "Enter" ==> reported.None? && inputValue == old(inputValue)
      ensures key == "Enter" ==> reported == CommittedYear(old(inputValue))
      ensures key == "Enter" && reported.None? ==> inputValue == NumberToString(year)
      ensures reported.Some? ==> inputValue == old(inputValue)
    {
      if key == "Enter" {
        reported := InputSubmit();
      } else {
        reported := None;
      }
    }

    /** A quick-jump button: report its year and show it in the field. */
    method QuickJump(quickYear: int) returns (reported: int)
      requires quickYear in QuickJumpYears
      modifies this`inputValue
      ensures reported == quickYear && inputValue == NumberToString(quickYear)
      ensures ParseInt(inputValue) == Some(reported)
      ensures MinYear <= reported <= MaxYear
    {
      reported := quickYear;
      inputValue := NumberToString(quickYear);
      ParseIntRoundTrip(quickYear);
    }

    /** The parent re-renders with a new `year`: React keeps the state, so
        the field is not re-synchronised with the prop. */
    method ReceiveYear(newYear: int)
      modifies this`year
      ensures year == newYear && inputValue == old(inputValue)
    {
      year := newYear;
    }
  }

  /** After a submit the field always reads as an in-range year, provided the
      current year is in range: either the accepted text, or the reset text. */
  lemma {:induction false} FieldValidAfterSubmit(inputValue: string, year: int)
    requires MinYear <= year <= MaxYear
    ensures var after := if CommittedYear(inputValue).Some? then inputValue else NumberToString(year);
      CommittedYear(after).Some?
  {
    ParseIntRoundTrip(year);
  }

  /** A submit reads a written year through leading white space and any
      trailing text that does not continue the numeral (" AD", a fraction
      ".9", an exponent "e3"), and commits it exactly when it is in range. */
  lemma {:induction false} SubmitOfWrittenYear(w: string, year: int, t: string)
    requires forall i :: 0 <= i < |w| ==> IsJsWhiteSpace(w[i])
    requires IsNumeralTerminator(t)
    ensures CommittedYear(w + NumberToString(year) + t).Some? <==> MinYear <= year <= MaxYear
    ensures CommittedYear(w + NumberToString(year) + t).Some? ==>
      CommittedYear(w + NumberToString(year) + t).value == year
  {
    ParseIntOfWrittenYear(w, NumberToString(year), year, t);
  }

  lemma {:induction false} ParseIntOfWrittenYear(w: string, d: string, year: int, t: string)
    requires forall i :: 0 <= i < |w| ==> IsJsWhiteSpace(w[i])
    requires IsNumeralTerminator(t) && d == NumberToString(year)
    ensures ParseInt(w + d + t) == Some(year)
  {
    var u := d + t;
    assert w + d + t == w + u;
    ParseIntOfNumberToString(year, t);
    ParseIntSkipsWhiteSpace(w, u);
  }

  /** Text starting `0x` or `0X` is read as hexadecimal. */
  lemma {:induction false} SubmitReadsHex(x: char, z: string, t: string)
    requires x == 'x' || x == 'X'
    requires z != [] && forall i :: 0 <= i < |z| ==> IsRadixDigit(z[i], true)
    requires t == [] || !IsRadixDigit(t[0], true)
    ensures ParseInt(['0', x] + z + t) == Some(NumeralValue(z, true))
  {
    var s := ['0', x] + z + t;
    assert s[0] == '0' && s[1] == x && HasHexPrefix(s);
    assert s[2..] == z + t;
    DigitPrefixOfRun(z, t, true);
    ParseIntOfUnsigned(s);
  }

  // ---------------------------------------------------------------------
  // Era label

  datatype Era = Medieval | EarlyModern | NineteenthCentury | TwentiethCentury | TwentyFirstCentury

  /** The era chosen by the threshold chain 1500, 1800, 1900, 2000. */
  function EraOf(year: int): (e: Era)
    ensures e == Medieval <==> year < 1500
    ensures e == TwentyFirstCentury <==> year >= 2000
  {
    if year < 1500 then Medieval
    else if year < 1800 then EarlyModern
    else if year < 1900 then NineteenthCentury
    else if year < 2000 then TwentiethCentury
    else TwentyFirstCentury
  }

  function EraRank(e: Era): nat {
    match e
    case Medieval => 0
    case EarlyModern => 1
    case NineteenthCentury => 2
    case TwentiethCentury => 3
    case TwentyFirstCentury => 4
  }

  /** The label text shown under the slider: a pictograph, then the era's name. */
  function EraLabel(e: Era): (r: string)
    ensures |r| >= 3 && r[0] >= '\U{2000}'
  {
    match e
    case Medieval => "\U{2694}\U{FE0F} Medieval Period"
    case EarlyModern => "\U{1F3DB}\U{FE0F} Early Modern"
    case NineteenthCentury => "\U{1F3A9} 19th Century"
    case TwentiethCentury => "\U{1F4FB} 20th Century"
    case TwentyFirstCentury => "\U{1F4BB} 21st Century"
  }

  /** Each era shows its own text, so the label under the slider tells the
      eras apart. */
  lemma EraLabelsDistinct(a: Era, b: Era)
    requires EraLabel(a) == EraLabel(b)
    ensures a == b
  {
    assert EraLabel(a)[0] == EraLabel(b)[0];
  }

  /** The eras partition the years into consecutive intervals, in order. */
  lemma EraIntervals(year: int)
    ensures EraOf(year) == Medieval <==> year < 1500
    ensures EraOf(year) == EarlyModern <==> 1500 <= year < 1800
    ensures EraOf(year) == NineteenthCentury <==> 1800 <= year < 1900
    ensures EraOf(year) == TwentiethCentury <==> 1900 <= year < 2000
    ensures EraOf(year) == TwentyFirstCentury <==> 2000 <= year
  {
  }

  /** A later year never has an earlier era. */
  lemma EraMonotone(a: int, b: int)
    requires a <= b
    ensures EraRank(EraOf(a)) <= EraRank(EraOf(b))
  {
  }

  /** The quick-jump years fall in three different eras. */
  lemma QuickJumpEras()
    ensures EraOf(QuickJumpYears[0]) == Medieval
    ensures EraOf(QuickJumpYears[1]) == EarlyModern
    ensures EraOf(QuickJumpYears[2]) == TwentyFirstCentury
  {
  }
}
