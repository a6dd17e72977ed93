/**
 * The two pieces of Kotlin's string library that the Save handler relies on,
 * `String.isBlank` and `String.toIntOrNull`, and their partner `Int.toString`,
 * which the review cards use to render a rating. Strings are `seq<char>`.
 */
module KotlinText {
  import opened Wrappers

  /** The range of Kotlin's 32-bit `Int`. */
  const IntMin: int := -0x8000_0000
  const IntMax: int := 0x7FFF_FFFF

  /**
   * `Char.isWhitespace` on the JVM: a character Java calls whitespace
   * (tab, line feed, vertical tab, form feed, carriage return, the four
   * information separators, and the space separators other than the
   * non-breaking ones) or a Unicode space, line or paragraph separator.
   */
  predicate IsWhitespace(c: char) {
    ('\U{9}' <= c <= '\U{D}') || ('\U{1C}' <= c <= '\U{20}')
    || c == '\U{A0}' || c == '\U{1680}'
    || ('\U{2000}' <= c <= '\U{200A}') || c == '\U{2028}' || c == '\U{2029}'
    || c == '\U{202F}' || c == '\U{205F}' || c == '\U{3000}'
  }

  /** `String.isBlank`: empty, or made only of whitespace. */
  predicate IsBlank(s: string): (b: bool)
    ensures s == [] ==> b
    ensures !b <==> exists i :: 0 <= i < |s| && !IsWhitespace(s[i])
  {
    forall i :: 0 <= i < |s| ==> IsWhitespace(s[i])
  }

  predicate IsDigit(c: char) {
    '0' <= c <= '9'
  }

  predicate AllDigits(s: string) {
    forall i :: 0 <= i < |s| ==> IsDigit(s[i])
  }

  function DigitValue(c: char): (d: nat)
    requires IsDigit(c)
    ensures d < 10
  {
    (c as int) - ('0' as int)
  }

  function DigitChar(d: nat): (c: char)
    requires d < 10
    ensures IsDigit(c) && DigitValue(c) == d
  {
    (('0' as int) + d) as char
  }

  /** The value of a string of decimal digits, most significant first. */
  function DigitsValue(s: string): nat
    requires AllDigits(s)
  {
    if s == [] then 0 else DigitsValue(s[..|s| - 1]) * 10 + DigitValue(s[|s| - 1])
  }

  /** The accepted text of a decimal integer: an optional sign, then at least one digit. */
  predicate IsDecimalText(s: string) {
    if |s| > 0 && (s[0] == '+' || s[0] == '-') then |s| > 1 && AllDigits(s[1..])
    else |s| > 0 && AllDigits(s)
  }

  /** The value that `IsDecimalText` text denotes, before any range check. */
  function DecimalValue(s: string): int
    requires IsDecimalText(s)
  {
    if s[0] == '-' then -(DigitsValue(s[1..]) as int)
    else if s[0] == '+' then DigitsValue(s[1..])
    else DigitsValue(s)
  }

  /** Decimal text is made of digits and at most a leading sign, none of them whitespace. */
  lemma DecimalTextHasNoWhitespace(s: string)
    requires IsDecimalText(s)
    ensures forall i :: 0 <= i < |s| ==> !IsWhitespace(s[i])
  {
  }

  /**
   * `String.toIntOrNull`: the value of the decimal text `s`, or `None` when
   * `s` is not an optional sign followed by digits (empty text, a lone sign,
   * any other character, surrounding whitespace) or the value does not fit
   * in an `Int`.
   */
  function ToIntOrNull(s: string): (r: Option<int>)
    ensures r.Some? ==> IntMin <= r.value <= IntMax
    ensures r.Some? ==> |s| > 0 && forall i :: 0 <= i < |s| ==> !IsWhitespace(s[i])
    ensures r.Some? && r.value < 0 ==> s[0] == '-'
    ensures r.Some? <==> IsDecimalText(s) && IntMin <= DecimalValue(s) <= IntMax
    ensures r.Some? ==> r.value == DecimalValue(s)
  {
    if IsDecimalText(s) && IntMin <= DecimalValue(s) <= IntMax then
      DecimalTextHasNoWhitespace(s);
      Some(DecimalValue(s))
    else
      None
  }

  /** `toString` of a non-negative `Int`: its shortest decimal digits. */
  function ShowNat(n: nat): (s: string)
    ensures |s| > 0 && AllDigits(s)
    ensures |s| > 1 ==> s[0] != '0'
  {
    if n < 10 then [DigitChar(n)] else ShowNat(n / 10) + [DigitChar(n % 10)]
  }

  /** `Int.toString`: a minus sign before the digits of a negative value. */
  function ShowInt(n: int): (s: string)
    ensures IsDecimalText(s)
    ensures s[0] != '+'
  {
    if n < 0 then "-" + ShowNat(-n) else ShowNat(n)
  }

  /** Reading back the digits `ShowNat` writes gives the number written. */
  lemma {:induction false} DigitsValueShowNat(n: nat)
    ensures DigitsValue(ShowNat(n)) == n
  {
    var s := ShowNat(n);
    if n >= 10 {
      DigitsValueShowNat(n / 10);
      assert s[..|s| - 1] == ShowNat(n / 10);
    }
  }

  /** `toIntOrNull` is the inverse of `toString` on every `Int`. */
  lemma ParseShowRoundTrip(n: int)
    requires IntMin <= n <= IntMax
    ensures ToIntOrNull(ShowInt(n)) == Some(n)
  {
    var s := ShowInt(n);
    if n < 0 {
      DigitsValueShowNat(-n);
      assert s[1..] == ShowNat(-n);
    } else {
      DigitsValueShowNat(n);
    }
    assert DecimalValue(s) == n;
  }

  /** Blank text never parses: neither the empty text nor whitespace is a number. */
  lemma BlankNeverParses(s: string)
    requires IsBlank(s)
    ensures ToIntOrNull(s) == None
  {
  }

  /** A leading zero does not change the value of a string of digits. */
  lemma {:induction false} LeadingZeroIgnored(s: string)
    requires AllDigits(s)
    ensures AllDigits("0" + s) && DigitsValue("0" + s) == DigitsValue(s)
  {
    var t := "0" + s;
    assert AllDigits(t) by {
      forall i | 0 <= i < |t| ensures IsDigit(t[i]) {
        if i > 0 { assert t[i] == s[i - 1]; }
      }
    }
    if s != [] {
      var init := s[..|s| - 1];
      assert AllDigits(init) by {
        forall i | 0 <= i < |init| ensures IsDigit(init[i]) { assert init[i] == s[i]; }
      }
      LeadingZeroIgnored(init);
      assert t[..|t| - 1] == "0" + init;
    }
  }

  /**
   * Leading zeros and a plus sign are accepted: "+05" reads as 5, the same
   * value as "5".
   */
  lemma PlusAndLeadingZeroAccepted(n: nat)
    requires n <= IntMax
    ensures ToIntOrNull("+0" + ShowNat(n)) == Some(n)
    ensures ToIntOrNull("0" + ShowNat(n)) == Some(n)
  {
    var d := ShowNat(n);
    LeadingZeroIgnored(d);
    DigitsValueShowNat(n);
    assert ("+0" + d)[1..] == "0" + d;
  }
}
