/** The two pieces of JavaScript string behaviour the controller relies on:
    `String.prototype.includes` (substring search) and the decimal rendering
    of an integer-valued number inside a template literal. */
module JsText {

  import opened Wrappers

  /** `needle` occurs in `hay` starting at offset `i`. */
  ghost predicate OccursAt(hay: string, needle: string, i: int) {
    0 <= i <= |hay| - |needle| && hay[i..i + |needle|] == needle
  }

  /** Specification of substring containment: `needle` occurs in `hay` at some offset. */
  ghost predicate Contains(hay: string, needle: string) {
    exists i :: OccursAt(hay, needle, i)
  }

  /** With no match at offset 0, containment in `hay` is containment in its tail. */
  lemma ContainsTail(hay: string, needle: string)
    requires |needle| <= |hay|
    requires hay[..|needle|] != needle
    ensures |hay| >= 1
    ensures Contains(hay, needle) <==> Contains(hay[1..], needle)
  {
    if Contains(hay, needle) {
      var i :| OccursAt(hay, needle, i);
      assert i != 0;
      assert hay[1..][i - 1..i - 1 + |needle|] == hay[i..i + |needle|];
      assert OccursAt(hay[1..], needle, i - 1);
    }
    if Contains(hay[1..], needle) {
      var j :| OccursAt(hay[1..], needle, j);
      assert hay[j + 1..j + 1 + |needle|] == hay[1..][j..j + |needle|];
      assert OccursAt(hay, needle, j + 1);
    }
  }

  /** `hay.includes(needle)`: a left-to-right search for `needle`. */
  function Includes(hay: string, needle: string): (b: bool)
    ensures b <==> Contains(hay, needle)
    decreases |hay|
  {
    if |hay| < |needle| then
      false
    else if hay[..|needle|] == needle then
      assert OccursAt(hay, needle, 0);
      true
    else
      ContainsTail(hay, needle);
      Includes(hay[1..], needle)
  }

  predicate IsDigit(c: char) {
    '0' <= c <= '9'
  }

  function Digit(d: nat): (c: char)
    requires d < 10
    ensures IsDigit(c)
  {
    ('0' as int + d) as char
  }

  function DigitValue(c: char): (d: nat)
    requires IsDigit(c)
    ensures d < 10 && Digit(d) == c
  {
    c as int - '0' as int
  }

  predicate AllDigits(s: string) {
    forall i :: 0 <= i < |s| ==> IsDigit(s[i])
  }

  /** A decimal numeral as JavaScript prints a non-negative integer:
      at least one digit, and a leading zero only in "0" itself. */
  predicate CanonicalDigits(s: string) {
    |s| >= 1 && AllDigits(s) && (s[0] == '0' ==> |s| == 1)
  }

  /** The value of a string of decimal digits (most significant first). */
  function DecimalValue(s: string): nat
    requires AllDigits(s)
    decreases |s|
  {
    if s == [] then 0 else 10 * DecimalValue(s[..|s| - 1]) + DigitValue(s[|s| - 1])
  }

  /** The decimal rendering of a non-negative integer. */
  function NatToDecimal(n: nat): (s: string)
    ensures CanonicalDigits(s)
    ensures s[0] == '0' <==> n == 0
    decreases n
  {
    if n < 10 then [Digit(n)] else NatToDecimal(n / 10) + [Digit(n % 10)]
  }

  /** `${n}` for an integer-valued number n: a minus sign, then the digits of |n|. */
  function IntToDecimal(n: int): string {
    if n < 0 then "-" + NatToDecimal(-n) else NatToDecimal(n)
  }

  /** Reads back a numeral exactly as IntToDecimal writes it; anything else is None. */
  function ParseDecimal(s: string): Option<int> {
    if |s| >= 1 && s[0] == '-' then
      if CanonicalDigits(s[1..]) && s[1..] != "0" then
        var magnitude: int := DecimalValue(s[1..]); Some(-magnitude)
      else
        None
    else if CanonicalDigits(s) then
      Some(DecimalValue(s))
    else
      None
  }

  lemma {:induction false} NatToDecimalValue(n: nat)
    ensures DecimalValue(NatToDecimal(n)) == n
    decreases n
  {
    var s := NatToDecimal(n);
    if n < 10 {
      assert s[..|s| - 1] == [];
    } else {
      assert s[..|s| - 1] == NatToDecimal(n / 10);
      NatToDecimalValue(n / 10);
    }
  }

  lemma {:induction false} LeadingNonZeroPositive(s: string)
    requires |s| >= 1 && AllDigits(s) && s[0] != '0'
    ensures DecimalValue(s) > 0
    decreases |s|
  {
    if |s| > 1 {
      LeadingNonZeroPositive(s[..|s| - 1]);
    } else {
      assert s[..|s| - 1] == [];
    }
  }

  lemma {:induction false} DecimalValueToNat(s: string)
    requires CanonicalDigits(s)
    ensures NatToDecimal(DecimalValue(s)) == s
    decreases |s|
  {
    var init := s[..|s| - 1];
    if |s| == 1 {
      assert init == [];
      assert s == [s[0]];
    } else {
      assert init[0] == s[0];
      LeadingNonZeroPositive(init);
      DecimalValueToNat(init);
      var n := DecimalValue(s);
      assert n / 10 == DecimalValue(init) && n % 10 == DigitValue(s[|s| - 1]);
      assert s == init + [s[|s| - 1]];
    }
  }

  /** Parsing the rendering of an integer gives that integer back. */
  lemma RenderThenParse(n: int)
    ensures ParseDecimal(IntToDecimal(n)) == Some(n)
  {
    var s := IntToDecimal(n);
    if n < 0 {
      assert s[0] == '-';
      assert s[1..] == NatToDecimal(-n);
      NatToDecimalValue(-n);
    } else {
      assert s[0] != '-';
      NatToDecimalValue(n);
    }
  }

  /** A string that parses is the rendering of the integer it parses to. */
  lemma ParseThenRender(s: string)
    requires ParseDecimal(s).Some?
    ensures IntToDecimal(ParseDecimal(s).value) == s
  {
    if |s| >= 1 && s[0] == '-' {
      var t := s[1..];
      assert t[0] != '0';
      LeadingNonZeroPositive(t);
      DecimalValueToNat(t);
      assert ParseDecimal(s).value + DecimalValue(t) == 0;
      assert s == "-" + t;
    } else {
      DecimalValueToNat(s);
    }
  }

  /** Decimal rendering and parsing are mutually inverse on integers. */
  lemma DecimalRoundTrip(n: int, s: string)
    ensures ParseDecimal(s) == Some(n) <==> s == IntToDecimal(n)
  {
    RenderThenParse(n);
    if ParseDecimal(s) == Some(n) {
      ParseThenRender(s);
    }
  }
}
