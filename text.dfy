/** Character-level helpers: the ASCII part of `str.lower()` and of
    `str.isdigit()` / `int(s)` on a token. */
module Text {

  predicate IsUpperChar(c: char) {
    'A' <= c <= 'Z'
  }

  /** `str.lower()` on one character, restricted to ASCII letters. */
  function LowerChar(c: char): (r: char)
    ensures !IsUpperChar(r)
    ensures !IsUpperChar(c) ==> r == c
    ensures IsUpperChar(c) ==> r as int == c as int + ('a' as int - 'A' as int)
  {
    if IsUpperChar(c) then (c as int + 32) as char else c
  }

  /** `str.lower()` on a string, restricted to ASCII letters. */
  function Lower(s: string): (r: string)
    ensures |r| == |s|
    ensures forall i :: 0 <= i < |s| ==> r[i] == LowerChar(s[i])
  {
    seq(|s|, i requires 0 <= i < |s| => LowerChar(s[i]))
  }

  /** Lower-casing twice is lower-casing once: the scorer re-lowers labels
      that the questionnaire has already lower-cased. */
  lemma LowerIdempotent(s: string)
    ensures Lower(Lower(s)) == Lower(s)
  {
  }

  predicate IsDigitChar(c: char) {
    '0' <= c <= '9'
  }

  /** `s.isdigit()` for ASCII digits: non-empty and digits only. */
  predicate IsDigits(s: string) {
    |s| > 0 && forall i :: 0 <= i < |s| ==> IsDigitChar(s[i])
  }

  /** `int(s)` for a string of ASCII digits (leading zeros allowed). */
  function DigitsValue(s: string): (n: nat)
    requires forall i :: 0 <= i < |s| ==> IsDigitChar(s[i])
    ensures |s| == 1 ==> n == s[0] as int - '0' as int
    decreases |s|
  {
    if s == [] then 0
    else
      assert IsDigitChar(s[|s| - 1]);
      DigitsValue(s[..|s| - 1]) * 10 + (s[|s| - 1] as int - '0' as int)
  }

  /** A digit string is worth 0 exactly when all its digits are '0'. */
  lemma {:induction false} ZerosValue(s: string)
    requires forall i :: 0 <= i < |s| ==> IsDigitChar(s[i])
    ensures DigitsValue(s) == 0 <==> forall i :: 0 <= i < |s| ==> s[i] == '0'
    decreases |s|
  {
    if s != [] {
      var init := s[..|s| - 1];
      assert forall i :: 0 <= i < |init| ==> init[i] == s[i];
      ZerosValue(init);
      assert DigitsValue(s) == DigitsValue(init) * 10 + (s[|s| - 1] as int - '0' as int);
    }
  }

  /** A digit string is worth some `v` in 1..n, for n of one digit, exactly
      when it is one non-zero digit at most n after any number of leading
      zeros: "02" and "002" are worth 2, "10" is worth ten. */
  lemma SmallDigitsShape(s: string, n: nat)
    requires n <= 9
    ensures (IsDigits(s) && 0 < DigitsValue(s) <= n) <==>
      |s| > 0 && (forall i :: 0 <= i < |s| - 1 ==> s[i] == '0') && 1 <= s[|s| - 1] as int - '0' as int <= n
  {
    if |s| > 0 {
      var init := s[..|s| - 1];
      var last := s[|s| - 1] as int - '0' as int;
      assert forall i :: 0 <= i < |init| ==> init[i] == s[i];
      if IsDigits(s) && 0 < DigitsValue(s) <= n {
        ZerosValue(init);
        assert DigitsValue(s) == DigitsValue(init) * 10 + last;
        assert DigitsValue(init) == 0;
      }
      if (forall i :: 0 <= i < |s| - 1 ==> s[i] == '0') && 1 <= last <= n {
        assert forall i :: 0 <= i < |s| ==> IsDigitChar(s[i]);
        ZerosValue(init);
        assert DigitsValue(s) == DigitsValue(init) * 10 + last;
      }
    }
  }
}
