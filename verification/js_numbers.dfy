/** The parts of JavaScript's number semantics the components depend on,
    on exact integers: the ToInt32 conversion behind `<<`, the truncating
    `%`, `Number.prototype.toString` for integers and `parseInt` without a
    radix. */
module JsNumbers {
  import opened JsValues
  import opened JsStrings

  const TwoTo31: int := 0x8000_0000
  const TwoTo32: int := 0x1_0000_0000

  /** ECMAScript ToInt32 on an integer: wrap modulo 2^32 into [-2^31, 2^31). */
  function ToInt32(x: int): (r: int)
    ensures -TwoTo31 <= r < TwoTo31
    ensures (x - r) % TwoTo32 == 0
    ensures -TwoTo31 <= x < TwoTo31 ==> r == x
  {
    var m := x % TwoTo32;
    if m >= TwoTo31 then m - TwoTo32 else m
  }

  function Abs(x: int): nat {
    if x < 0 then -x else x
  }

  /** JavaScript `a % b` for a positive divisor: the remainder takes the sign
      of the dividend (truncated division), unlike Dafny's Euclidean `%`. */
  function TruncRem(a: int, b: int): (r: int)
    requires b > 0
    ensures a >= 0 ==> r == a % b
    ensures a < 0 ==> r == -(Abs(a) % b)
    ensures Abs(r) == Abs(a) % b < b
  {
    if a >= 0 then a % b else -((-a) % b)
  }

  // ---------------------------------------------------------------------
  // Decimal digits

  predicate IsDecimalDigit(c: char) {
    '0' <= c <= '9'
  }

  /** A digit of radix 16 when `hex`, else of radix 10: `parseInt` without a
      radix reads decimal, or hexadecimal after a `0x` prefix. */
  predicate IsRadixDigit(c: char, hex: bool) {
    IsDecimalDigit(c) || (hex && ('a' <= c <= 'f' || 'A' <= c <= 'F'))
  }

  function DigitValue(c: char): (d: nat)
    requires IsRadixDigit(c, true)
    ensures d < 16
    ensures IsDecimalDigit(c) ==> d < 10
  {
    if IsDecimalDigit(c) then c as int - '0' as int
    else if 'a' <= c <= 'f' then c as int - 'a' as int + 10
    else c as int - 'A' as int + 10
  }

  function DigitChar(d: nat): (c: char)
    requires d < 10
    ensures IsDecimalDigit(c) && DigitValue(c) == d
  {
    (d + '0' as int) as char
  }

  /** The shortest decimal numeral of a natural number: no leading zero
      except in "0" itself. */
  function Digits(n: nat): (s: string)
    ensures |s| >= 1
    ensures forall i :: 0 <= i < |s| ==> IsDecimalDigit(s[i])
    ensures n > 0 ==> s[0] != '0'
    ensures n == 0 ==> s == "0"
  {
    if n < 10 then [DigitChar(n)] else Digits(n / 10) + [DigitChar(n % 10)]
  }

  /** `Number.prototype.toString()` of an integer value. */
  function NumberToString(n: int): (s: string)
    ensures |s| >= 1
    ensures n < 0 <==> s[0] == '-'
    ensures n >= 0 ==> s == Digits(n)
    ensures n < 0 ==> s == "-" + Digits(-n)
    ensures n > 0 ==> s[0] != '0'
    ensures n < 0 ==> s[1] != '0'
    ensures n == 0 ==> s == "0"
  {
    if n < 0 then "-" + Digits(-n) else Digits(n)
  }

  // ---------------------------------------------------------------------
  // parseInt(s) with no radix argument

  /** The longest prefix of `s` made of radix digits. */
  function DigitPrefix(s: string, hex: bool): (z: string)
    ensures |z| <= |s| && z == s[..|z|]
    ensures forall i :: 0 <= i < |z| ==> IsRadixDigit(z[i], hex)
    ensures |z| < |s| ==> !IsRadixDigit(s[|z|], hex)
  {
    if s != [] && IsRadixDigit(s[0], hex) then [s[0]] + DigitPrefix(s[1..], hex) else []
  }

  /** The value of a numeral, most significant digit first. */
  function NumeralValue(z: string, hex: bool): nat
    requires forall i :: 0 <= i < |z| ==> IsRadixDigit(z[i], hex)
  {
    if z == [] then 0
    else
      var last := z[|z| - 1];
      assert IsRadixDigit(last, hex);
      NumeralValue(z[..|z| - 1], hex) * (if hex then 16 else 10) + DigitValue(last)
  }

  /** Whether the (already trimmed and unsigned) text starts with `0x` or `0X`. */
  predicate HasHexPrefix(s: string) {
    |s| >= 2 && s[0] == '0' && (s[1] == 'x' || s[1] == 'X')
  }

  /** `parseInt(s)`: skip leading white space, then read a signed number;
      `None` is NaN. */
  function ParseInt(input: string): (r: Option<int>)
    ensures TrimStart(input) == [] ==> r.None?
    ensures r.Some? && r.value < 0 ==> TrimStart(input)[0] == '-'
  {
    ParseSigned(TrimStart(input))
  }

  /** The number at the start of trimmed text: an optional sign, then the
      unsigned number after it. */
  function ParseSigned(s: string): (r: Option<int>)
  {
    if s != [] && s[0] == '-' then
      match ParseUnsigned(s[1..])
      case None => None
      case Some(v) => Some(-v)
    else if s != [] && s[0] == '+' then ParseUnsigned(s[1..])
    else ParseUnsigned(s)
  }

  /** The number at the start of unsigned text: radix 16 after a `0x`/`0X`
      prefix, else radix 10, over the longest run of digits; `None` when
      that run is empty. */
  function ParseUnsigned(u: string): (r: Option<int>)
    ensures r.Some? ==> r.value >= 0
  {
    var hex := HasHexPrefix(u);
    var z := DigitPrefix(if hex then u[2..] else u, hex);
    if z == [] then None else Some(NumeralValue(z, hex))
  }

  // ---------------------------------------------------------------------
  // Lemmas

  lemma {:induction false} NumeralOfDigits(n: nat)
    ensures NumeralValue(Digits(n), false) == n
  {
    if n >= 10 {
      var d := Digits(n);
      assert d[..|d| - 1] == Digits(n / 10);
      NumeralOfDigits(n / 10);
    }
  }

  /** When the text after a run of digits does not continue it, the digit prefix is that run. */
  lemma {:induction false} DigitPrefixOfRun(d: string, t: string, hex: bool)
    requires forall i :: 0 <= i < |d| ==> IsRadixDigit(d[i], hex)
    requires t == [] || !IsRadixDigit(t[0], hex)
    ensures DigitPrefix(d + t, hex) == d
  {
    if d != [] {
      assert (d + t)[1..] == d[1..] + t;
      DigitPrefixOfRun(d[1..], t, hex);
    }
  }

  /** What may follow a numeral without changing what `parseInt` reads. */
  predicate IsNumeralTerminator(t: string) {
    t == [] || (!IsDecimalDigit(t[0]) && t[0] != 'x' && t[0] != 'X')
  }

  lemma {:induction false} ParseUnsignedOfDigits(n: nat, t: string)
    requires IsNumeralTerminator(t)
    ensures ParseUnsigned(Digits(n) + t) == Some(n)
  {
    var d := Digits(n);
    var u := d + t;
    assert !HasHexPrefix(u) by {
      if |u| >= 2 {
        if |d| >= 2 { assert u[1] == d[1]; } else { assert u[1] == t[0]; }
      }
    }
    DigitPrefixOfRun(d, t, false);
    NumeralOfDigits(n);
  }

  /** `parseInt` reads back the integer `toString` wrote, whatever non-digit text follows it. */
  lemma {:induction false} ParseIntOfNumberToString(n: int, t: string)
    requires IsNumeralTerminator(t)
    ensures ParseInt(NumberToString(n) + t) == Some(n)
  {
    var x := NumberToString(n) + t;
    if n < 0 {
      ParseIntOfNegativeDigits(-n, t, x);
    } else {
      ParseIntOfDigits(n, t, x);
    }
  }

  lemma {:induction false} ParseIntOfDigits(n: nat, t: string, x: string)
    requires IsNumeralTerminator(t) && x == Digits(n) + t
    ensures ParseInt(x) == Some(n)
  {
    assert x[0] == Digits(n)[0];
    ParseUnsignedOfDigits(n, t);
    TrimStartOfNonWhiteSpace(x);
  }

  lemma {:induction false} ParseIntOfNegativeDigits(n: nat, t: string, x: string)
    requires IsNumeralTerminator(t) && x == "-" + Digits(n) + t
    ensures ParseInt(x) == Some(-(n as int))
  {
    var u := Digits(n) + t;
    assert x == "-" + u;
    ParseUnsignedOfDigits(n, t);
    ParseIntOfMinus(u, n, x);
  }

  /** A `-` before an unsigned number negates it. */
  lemma {:induction false} ParseIntOfMinus(u: string, v: int, x: string)
    requires ParseUnsigned(u) == Some(v) && x == "-" + u
    ensures ParseInt(x) == Some(-v)
  {
    assert x[0] == '-' && x[1..] == u;
    TrimStartOfNonWhiteSpace(x);
  }

  /** Text that does not start with white space is not trimmed. */
  lemma {:induction false} TrimStartOfNonWhiteSpace(s: string)
    requires s != [] && !IsJsWhiteSpace(s[0])
    ensures TrimStart(s) == s
  {
  }

  /** Text that starts with a digit is read without sign handling. */
  lemma {:induction false} ParseIntOfUnsigned(s: string)
    requires s != [] && IsDecimalDigit(s[0])
    ensures ParseInt(s) == ParseUnsigned(s)
  {
    assert TrimStart(s) == s;
  }

  /** `parseInt` reads back the integer `toString` wrote. */
  lemma {:induction false} ParseIntRoundTrip(n: int)
    ensures ParseInt(NumberToString(n)) == Some(n)
  {
    ParseIntOfNumberToString(n, "");
    assert NumberToString(n) + "" == NumberToString(n);
  }

  /** Different integers are written differently. */
  lemma {:induction false} NumberToStringInjective(a: int, b: int)
    requires NumberToString(a) == NumberToString(b)
    ensures a == b
  {
    ParseIntRoundTrip(a);
    ParseIntRoundTrip(b);
  }

  /** Leading white space never changes what `parseInt` reads. */
  lemma {:induction false} ParseIntSkipsWhiteSpace(w: string, s: string)
    requires forall i :: 0 <= i < |w| ==> IsJsWhiteSpace(w[i])
    ensures ParseInt(w + s) == ParseInt(s)
  {
    TrimStartOfWhiteSpace(w, s);
  }

  lemma {:induction false} TrimStartOfWhiteSpace(w: string, s: string)
    requires forall i :: 0 <= i < |w| ==> IsJsWhiteSpace(w[i])
    ensures TrimStart(w + s) == TrimStart(s)
  {
    if w != [] {
      assert (w + s)[0] == w[0] && IsJsWhiteSpace(w[0]);
      assert (w + s)[1..] == w[1..] + s;
      assert TrimStart(w + s) == TrimStart(w[1..] + s);
      TrimStartOfWhiteSpace(w[1..], s);
    } else {
      assert w + s == s;
    }
  }

  /** Text with no digit at its start (after white space and sign) is NaN. */
  lemma {:induction false} ParseIntNaN(input: string)
    requires var s := TrimStart(input);
             var u := if s != [] && (s[0] == '-' || s[0] == '+') then s[1..] else s;
             u == [] || !IsDecimalDigit(u[0])
    ensures ParseInt(input) == None
  {
  }
}
