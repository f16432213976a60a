/** The numeric conversion the loader relies on: Python's `float(token)`,
    restricted to plain decimal notation (optional sign, ASCII digits,
    optional fractional part). Like `float`, it ignores the white space
    around the token that `float` itself ignores, which is not quite what
    `str.strip` removes. */
module NumericParser {
  import opened Wrappers
  import opened Strings

  predicate IsDigit(c: char) {
    '0' <= c <= '9'
  }

  predicate AllDigits(s: string) {
    forall i :: 0 <= i < |s| ==> IsDigit(s[i])
  }

  /** The characters plain decimal notation is written with. */
  predicate IsDecimalChar(c: char) {
    IsDigit(c) || c == '.' || c == '+' || c == '-'
  }

  function DigitValue(c: char): nat
    requires IsDigit(c)
  {
    c as int - '0' as int
  }

  /** The natural number a digit string denotes, read most significant first. */
  function DigitsValue(s: string): nat
    requires AllDigits(s)
    decreases |s|
  {
    if |s| == 0 then 0 else DigitsValue(s[..|s| - 1]) * 10 + DigitValue(s[|s| - 1])
  }

  function Pow10(n: nat): (r: nat)
    ensures r >= 1
  {
    if n == 0 then 1 else 10 * Pow10(n - 1)
  }

  /** Length of the run of digits `s` starts with. */
  function DigitRun(s: string): (n: nat)
    ensures n <= |s| && AllDigits(s[..n])
    ensures n < |s| ==> !IsDigit(s[n])
    decreases |s|
  {
    if |s| > 0 && IsDigit(s[0]) then
      var n := 1 + DigitRun(s[1..]);
      assert forall i :: 1 <= i < n ==> s[..n][i] == s[1..][..n - 1][i - 1];
      n
    else 0
  }

  /** An unsigned decimal: `ddd`, `ddd.`, `.ddd` or `ddd.ddd`, with at least
      one digit in all. */
  function ParseUnsigned(s: string): (r: Option<real>)
    ensures r.Some? ==> |s| > 0 && r.value >= 0.0
  {
    var n := DigitRun(s);
    var whole := s[..n];
    var rest := s[n..];
    if rest == [] then
      if n > 0 then Some(DigitsValue(whole) as real) else None
    else if rest[0] == '.' && AllDigits(rest[1..]) && n + |rest| > 1 then
      var frac := rest[1..];
      Some(DigitsValue(whole) as real + DigitsValue(frac) as real / Pow10(|frac|) as real)
    else None
  }

  /** Plain decimal notation with an optional leading `+` or `-`. */
  function ParseDecimal(s: string): (r: Option<real>)
    ensures r.Some? ==> |s| > 0
  {
    if |s| > 0 && (s[0] == '+' || s[0] == '-') then
      match ParseUnsigned(s[1..])
      case None => None
      case Some(v) => Some(if s[0] == '-' then -v else v)
    else ParseUnsigned(s)
  }

  /** The white space `float` ignores around a token: what `str.isspace`
      accepts, except the ASCII information separators FS, GS, RS and US
      (U+001C..U+001F). `float` maps every non-ASCII space to a plain space
      and then strips only the C-locale white space, which leaves those
      four out. */
  predicate IsFloatSpace(c: char) {
    IsSpace(c) && !(0x1C <= c as int <= 0x1F)
  }

  /** How many characters of float white space `s` starts with. */
  function LeadingFloatSpace(s: string): (k: nat)
    ensures k <= |s|
    ensures forall i :: 0 <= i < k ==> IsFloatSpace(s[i])
    ensures k < |s| ==> !IsFloatSpace(s[k])
    decreases |s|
  {
    if |s| > 0 && IsFloatSpace(s[0]) then
      assert forall i :: 1 <= i < |s| ==> s[i] == s[1..][i - 1];
      1 + LeadingFloatSpace(s[1..])
    else 0
  }

  /** Drops the trailing float white space. */
  function FloatTrimEnd(s: string): (r: string)
    ensures |r| <= |s| && r == s[..|r|]
    ensures forall i :: |r| <= i < |s| ==> IsFloatSpace(s[i])
    ensures |r| > 0 ==> !IsFloatSpace(r[|r| - 1])
    decreases |s|
  {
    if |s| > 0 && IsFloatSpace(s[|s| - 1]) then FloatTrimEnd(s[..|s| - 1]) else s
  }

  /** The token as `float` sees it: the middle part of `s` left after float
      white space is cut from both ends. */
  function FloatStrip(s: string): (r: string)
    ensures LeadingFloatSpace(s) + |r| <= |s|
    ensures r == s[LeadingFloatSpace(s)..LeadingFloatSpace(s) + |r|]
    ensures forall i :: LeadingFloatSpace(s) + |r| <= i < |s| ==> IsFloatSpace(s[i])
    ensures |r| > 0 ==> !IsFloatSpace(r[0]) && !IsFloatSpace(r[|r| - 1])
  {
    var k := LeadingFloatSpace(s);
    var t := s[k..];
    var r := FloatTrimEnd(t);
    assert t[..|r|] == s[k..k + |r|];
    forall i | k + |r| <= i < |s|
      ensures IsFloatSpace(s[i])
    {
      assert s[i] == t[i - k];
    }
    assert |r| > 0 ==> r[0] == s[k];
    r
  }

  /** `float(token)`: `None` stands for the `ValueError` Python raises. A
      token that converts is not blank. */
  function ParseFloat(token: string): (r: Option<real>)
    ensures r.Some? ==> !IsBlank(token)
  {
    StrippedDecimalNotBlank(token);
    ParseDecimal(FloatStrip(token))
  }

  /** What `float` converts holds a character that is not white space. */
  lemma StrippedDecimalNotBlank(token: string)
    ensures ParseDecimal(FloatStrip(token)).Some? ==> !IsBlank(token)
  {
    var s := FloatStrip(token);
    if ParseDecimal(s).Some? {
      DecimalAlphabet(s);
      assert token[LeadingFloatSpace(token)] == s[0];
    }
  }

  /** A token with no float white space at its ends is converted as it is. */
  lemma FloatStripUnchanged(s: string)
    requires |s| > 0 && !IsFloatSpace(s[0]) && !IsFloatSpace(s[|s| - 1])
    ensures FloatStrip(s) == s
    ensures ParseFloat(s) == ParseDecimal(s)
  {
    assert LeadingFloatSpace(s) == 0 && s[0..] == s;
  }

  /** `DataSet._is_numeric`: the conversion succeeds. */
  predicate IsNumeric(token: string) {
    ParseFloat(token).Some?
  }

  /** An unsigned decimal is written in digits and `.` only. */
  lemma UnsignedAlphabet(s: string)
    requires ParseUnsigned(s).Some?
    ensures forall i :: 0 <= i < |s| ==> IsDigit(s[i]) || s[i] == '.'
  {
    var n := DigitRun(s);
    if n < |s| {
      var rest := s[n..];
      forall i | 0 <= i < |s|
        ensures IsDigit(s[i]) || s[i] == '.'
      {
        if i < n {
          assert s[i] == s[..n][i];
        } else if i > n {
          assert s[i] == rest[1..][i - n - 1];
        }
      }
    } else {
      assert s == s[..n];
    }
  }

  /** A decimal is written in decimal characters only. */
  lemma DecimalAlphabet(s: string)
    requires ParseDecimal(s).Some?
    ensures forall i :: 0 <= i < |s| ==> IsDecimalChar(s[i])
  {
    if s[0] == '+' || s[0] == '-' {
      UnsignedAlphabet(s[1..]);
      assert forall i :: 1 <= i < |s| ==> s[i] == s[1..][i - 1];
    } else {
      UnsignedAlphabet(s);
    }
  }

  /** A token that converts as written converts to the same value once
      stripped: what `str.strip` removes beyond float white space (the
      separators U+001C..U+001F) cannot border a number. The converse fails;
      see `SeparatorNotIgnored`. */
  lemma ParseFloatTrim(token: string)
    requires ParseFloat(token).Some?
    ensures ParseFloat(Trim(token)) == ParseFloat(token)
  {
    var k := LeadingFloatSpace(token);
    var s := FloatStrip(token);
    DecimalAlphabet(s);
    assert StripsTo(token, k, s);
    TrimPadded(token, k, s);
    FloatStripUnchanged(s);
  }

  /** A separator in front of a number keeps it from converting, although
      `str.strip` would remove it: `float("\x1c5")` raises while
      `float("\x1c5".strip())` is 5. */
  lemma SeparatorNotIgnored()
    ensures ParseFloat("\U{1C}5") == None
    ensures Trim("\U{1C}5") == "5"
    ensures ParseFloat(Trim("\U{1C}5")) == Some(5.0)
  {
    NonDecimalCharRejected("\U{1C}5", 0);
    assert Trim("\U{1C}5") == Trim("5");
    assert FormatInt(5) == "5";
    FormatIntRoundTrip(5);
  }

  /** A token holding a character that is neither float white space nor
      part of decimal notation (a letter, or a separator U+001C..U+001F) is
      not numeric. */
  lemma NonDecimalCharRejected(token: string, i: nat)
    requires i < |token| && !IsFloatSpace(token[i]) && !IsDecimalChar(token[i])
    ensures !IsNumeric(token)
  {
    var k := LeadingFloatSpace(token);
    var s := FloatStrip(token);
    if ParseDecimal(s).Some? {
      assert k <= i < k + |s|;
      assert s[i - k] == token[i];
      DecimalAlphabet(s);
    }
  }

  /** Decimal rendering of a natural number, most significant digit first. */
  function FormatNat(n: nat): (s: string)
    ensures |s| > 0 && AllDigits(s)
  {
    if n < 10 then ['0' + n as char]
    else
      var s := FormatNat(n / 10) + ['0' + (n % 10) as char];
      assert forall i :: 0 <= i < |s| - 1 ==> s[i] == FormatNat(n / 10)[i];
      s
  }

  /** Decimal rendering of an integer: a `-` sign before negative numbers. */
  function FormatInt(x: int): (s: string)
    ensures |s| > 0 && !IsSpace(s[0]) && !IsSpace(s[|s| - 1])
  {
    if x < 0 then "-" + FormatNat(-x) else FormatNat(x)
  }

  lemma {:induction false} DigitsValueFormatNat(n: nat)
    ensures DigitsValue(FormatNat(n)) == n
  {
    if n >= 10 {
      var s := FormatNat(n);
      assert s[..|s| - 1] == FormatNat(n / 10);
      DigitsValueFormatNat(n / 10);
    }
  }

  /** Round trip: converting the decimal rendering of an integer gives that
      integer back. */
  lemma FormatIntRoundTrip(x: int)
    ensures ParseFloat(FormatInt(x)) == Some(x as real)
  {
    var s := FormatInt(x);
    FloatStripUnchanged(s);
    var digits := if x < 0 then FormatNat(-x) else FormatNat(x);
    DigitsValueFormatNat(if x < 0 then -x else x);
    assert DigitRun(digits) == |digits|;
    assert digits[..|digits|] == digits;
    if x < 0 {
      assert s[1..] == digits;
    } else {
      assert digits[0] != '+' && digits[0] != '-';
    }
  }
}
