/** Decimal text of integers: `str(n)` for the page numbers in output names
    and `int(text)` for a worker count given as a string. */
module Decimal {
  import opened Wrappers

  predicate IsDigit(c: char) {
    '0' <= c <= '9'
  }

  predicate AllDigits(s: string) {
    forall i :: 0 <= i < |s| ==> IsDigit(s[i])
  }

  function DigitChar(d: nat): (c: char)
    requires d < 10
    ensures IsDigit(c) && c as int - '0' as int == d
  {
    ('0' as int + d) as char
  }

  function DigitValue(c: char): (d: nat)
    requires IsDigit(c)
    ensures d < 10 && DigitChar(d) == c
  {
    c as int - '0' as int
  }

  /** `str(n)` for a non-negative `n`: its decimal digits, most significant
      first, with no leading zero. */
  function NatToString(n: nat): (s: string)
    ensures s != [] && AllDigits(s)
    ensures |s| > 1 ==> s[0] != '0'
    decreases n
  {
    if n < 10 then [DigitChar(n)] else NatToString(n / 10) + [DigitChar(n % 10)]
  }

  /** The value of a string of decimal digits. */
  function DigitsValue(s: string): nat
    requires AllDigits(s)
  {
    if s == [] then 0 else DigitsValue(s[..|s| - 1]) * 10 + DigitValue(s[|s| - 1])
  }

  /** Reading back the digits `str(n)` writes gives `n`. */
  lemma {:induction false} DigitsValueOfNatToString(n: nat)
    ensures DigitsValue(NatToString(n)) == n
    decreases n
  {
    if n >= 10 {
      var s := NatToString(n);
      assert s[..|s| - 1] == NatToString(n / 10);
      DigitsValueOfNatToString(n / 10);
    }
  }

  /** Distinct numbers have distinct decimal text. */
  lemma NatToStringInjective(m: nat, n: nat)
    ensures NatToString(m) == NatToString(n) ==> m == n
  {
    DigitsValueOfNatToString(m);
    DigitsValueOfNatToString(n);
  }

  /** `int(text)` on a string: an optional sign and one or more decimal
      digits, or a ValueError (`None` here). */
  function ParseInt(text: string): (r: Option<int>)
    ensures r.Some? <==> (text != [] && AllDigits(text)) ||
                         (|text| > 1 && (text[0] == '+' || text[0] == '-') && AllDigits(text[1..]))
    ensures text != [] && AllDigits(text) ==> r == Some(DigitsValue(text))
    ensures |text| > 1 && (text[0] == '+' || text[0] == '-') && AllDigits(text[1..]) ==>
              r == Some(if text[0] == '-' then 0 - DigitsValue(text[1..]) as int else DigitsValue(text[1..]) as int)
  {
    if text != [] && (text[0] == '+' || text[0] == '-') then
      var digits := text[1..];
      if digits != [] && AllDigits(digits) then
        Some(if text[0] == '-' then 0 - DigitsValue(digits) as int else DigitsValue(digits) as int)
      else None
    else if text != [] && AllDigits(text) then Some(DigitsValue(text))
    else None
  }

  /** `int(str(i)) == i` for every integer `i`. */
  lemma ParseIntOfString(i: int)
    ensures ParseInt(if i < 0 then "-" + NatToString(-i) else NatToString(i)) == Some(i)
  {
    if i < 0 {
      DigitsValueOfNatToString(-i);
      assert ("-" + NatToString(-i))[1..] == NatToString(-i);
    } else {
      DigitsValueOfNatToString(i);
    }
  }

  /** Text with a character that is neither a digit nor a leading sign is
      rejected. */
  lemma ParseIntRejectsNonDigit(text: string, k: int)
    requires 0 < k < |text| && !IsDigit(text[k])
    ensures ParseInt(text) == None
  {
    assert text[1..][k - 1] == text[k];
  }
}
