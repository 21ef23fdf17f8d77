/** The two number conversions the primitive coercers rely on:
    `Number(text)` followed by the `isNaN` test (None stands for NaN), and
    `n.toString()`. Both are modelled on the decimal integers. */
module Numerals {
  import opened Values

  /** The characters `Number(text)` strips from both ends of its argument
      (StrWhiteSpaceChar of ECMA-262: tab, vertical tab, form feed, space,
      no-break space, the byte order mark, the Unicode space separators and
      the four line terminators). */
  predicate IsJsWhitespace(c: char) {
    var k := c as int;
    k == 0x09 || k == 0x0A || k == 0x0B || k == 0x0C || k == 0x0D || k == 0x20
    || k == 0xA0 || k == 0x1680 || (0x2000 <= k <= 0x200A) || k == 0x2028
    || k == 0x2029 || k == 0x202F || k == 0x205F || k == 0x3000 || k == 0xFEFF
  }

  function TrimStart(s: string): (r: string)
    ensures |r| <= |s| && r == s[|s| - |r|..]
    ensures r != [] ==> !IsJsWhitespace(r[0])
    ensures forall i :: 0 <= i < |s| - |r| ==> IsJsWhitespace(s[i])
  {
    if s != [] && IsJsWhitespace(s[0]) then TrimStart(s[1..]) else s
  }

  function TrimEnd(s: string): (r: string)
    ensures |r| <= |s| && r == s[..|r|]
    ensures r != [] ==> !IsJsWhitespace(r[|r| - 1])
    ensures forall i :: |r| <= i < |s| ==> IsJsWhitespace(s[i])
  {
    if s != [] && IsJsWhitespace(s[|s| - 1]) then TrimEnd(s[..|s| - 1]) else s
  }

  function Trim(s: string): string {
    TrimEnd(TrimStart(s))
  }

  /** The numeric literal a string denotes, or None where `Number(text)` is
      NaN. Blank text is 0; otherwise an optional sign and decimal digits. */
  function StringToNumber(text: string): (r: Option<int>)
    ensures text != [] && AllDigits(text) ==> r == Some(DigitsValue(text))
    ensures r.Some? && r.value < 0 ==> '-' in text
  {
    var t := Trim(text);
    if t == [] then Some(0)
    else if t[0] == '-' && |t| > 1 && AllDigits(t[1..]) then Some(0 - DigitsValue(t[1..]) as int)
    else if t[0] == '+' && |t| > 1 && AllDigits(t[1..]) then Some(DigitsValue(t[1..]))
    else if AllDigits(t) then Some(DigitsValue(t))
    else None
  }

  /** `n.toString()` on an integer: its decimal text, with `-` when negative. */
  function NumberToString(n: int): (s: string)
    ensures |s| > 0 && !IsJsWhitespace(s[0]) && !IsJsWhitespace(s[|s| - 1])
    ensures s[0] == '-' <==> n < 0
    ensures var digits := if n < 0 then s[1..] else s;
            |digits| > 0 && AllDigits(digits) && (|digits| > 1 ==> digits[0] != '0')
  {
    if n < 0 then "-" + NatToString(-n) else NatToString(n)
  }

  /** Text that neither starts nor ends with white space is its own trim. */
  lemma TrimUntrimmed(s: string)
    requires s != [] && !IsJsWhitespace(s[0]) && !IsJsWhitespace(s[|s| - 1])
    ensures Trim(s) == s
  {
    assert TrimStart(s) == s;
  }

  /** Reading back the text of a number gives the number. */
  lemma {:induction false} NumberToStringRoundTrip(n: int)
    ensures StringToNumber(NumberToString(n)) == Some(n)
  {
    var s := NumberToString(n);
    var m: nat := if n < 0 then -n else n;
    var digits := NatToString(m);
    NatToStringValue(m);
    assert IsDigit(digits[0]) && IsDigit(digits[|digits| - 1]);
    if n < 0 {
      assert s == "-" + digits;
      assert s[|s| - 1] == digits[|digits| - 1];
      TrimUntrimmed(s);
      assert s[1..] == digits;
    } else {
      assert s == digits;
      TrimUntrimmed(s);
    }
  }
}
