/** The string operations the pipeline applies to names: `str.lower`,
    `str.upper` and `str.endswith`, on the ASCII letters. */
module PyText {

  predicate IsUpperAscii(c: char) {
    'A' <= c <= 'Z'
  }

  predicate IsLowerAscii(c: char) {
    'a' <= c <= 'z'
  }

  function LowerChar(c: char): (r: char)
    ensures !IsUpperAscii(r)
    ensures IsUpperAscii(c) ==> IsLowerAscii(r) && r as int == c as int + 32
    ensures !IsUpperAscii(c) ==> r == c
  {
    if IsUpperAscii(c) then (c as int + 32) as char else c
  }

  function UpperChar(c: char): (r: char)
    ensures !IsLowerAscii(r)
    ensures IsLowerAscii(c) ==> IsUpperAscii(r) && r as int == c as int - 32
    ensures !IsLowerAscii(c) ==> r == c
  {
    if IsLowerAscii(c) then (c as int - 32) as char else c
  }

  /** `s.lower()`: every upper-case letter replaced, everything else kept. */
  function Lower(s: string): (r: string)
    ensures |r| == |s|
    ensures forall i :: 0 <= i < |s| ==> r[i] == LowerChar(s[i])
  {
    if s == [] then [] else Lower(s[..|s| - 1]) + [LowerChar(s[|s| - 1])]
  }

  /** `s.upper()`. */
  function Upper(s: string): (r: string)
    ensures |r| == |s|
    ensures forall i :: 0 <= i < |s| ==> r[i] == UpperChar(s[i])
  {
    if s == [] then [] else Upper(s[..|s| - 1]) + [UpperChar(s[|s| - 1])]
  }

  predicate HasUpper(s: string) {
    exists i :: 0 <= i < |s| && IsUpperAscii(s[i])
  }

  /** `s.endswith(suffix)`. */
  predicate EndsWith(s: string, suffix: string) {
    |suffix| <= |s| && s[|s| - |suffix|..] == suffix
  }

  /** A lowered string holds no upper-case letter, and lowering twice is
      lowering once. */
  lemma LowerIsLower(s: string)
    ensures !HasUpper(Lower(s))
    ensures Lower(Lower(s)) == Lower(s)
  {
  }

  /** Lowering distributes over concatenation. */
  lemma LowerAppend(a: string, b: string)
    ensures Lower(a + b) == Lower(a) + Lower(b)
  {
    assert forall i :: 0 <= i < |a + b| ==> Lower(a + b)[i] == (Lower(a) + Lower(b))[i];
  }

  /** A string with an upper-case letter is never a suffix of a lowered
      string. */
  lemma UpperSuffixNeverMatchesLowered(s: string, suffix: string)
    requires HasUpper(suffix)
    ensures !EndsWith(Lower(s), suffix)
  {
  }

  /** A lowered name ends with a lower-case suffix exactly when the name
      ends with some casing of it. */
  lemma EndsWithLowered(s: string, suffix: string)
    ensures EndsWith(Lower(s), Lower(suffix)) <==>
            |suffix| <= |s| && Lower(s[|s| - |suffix|..]) == Lower(suffix)
  {
    if |suffix| <= |s| {
      var t := s[|s| - |suffix|..];
      assert Lower(s)[|s| - |suffix|..] == Lower(t) by {
        assert forall i :: 0 <= i < |t| ==> Lower(s)[|s| - |suffix| + i] == Lower(t)[i];
      }
    }
  }
}
