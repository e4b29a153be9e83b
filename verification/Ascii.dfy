/** Letters and digits of ASCII. */
module Ascii {

  predicate IsUpper(c: char) { 'A' <= c <= 'Z' }
  predicate IsLower(c: char) { 'a' <= c <= 'z' }
  predicate IsDigit(c: char) { '0' <= c <= '9' }

  function UpperChar(c: char): char { if IsLower(c) then (c as int - 32) as char else c }
  function LowerChar(c: char): char { if IsUpper(c) then (c as int + 32) as char else c }

  // The same, listed.

  const SMALL_LETTERS := "abcdefghijklmnopqrstuvwxyz"
  const CAPITAL_LETTERS := "ABCDEFGHIJKLMNOPQRSTUVWXYZ"
  const DIGITS := "0123456789"

  lemma SmallLetters(c: char)
    ensures IsLower(c) <==> c in SMALL_LETTERS
  {
    if IsLower(c) { assert SMALL_LETTERS[c as int - 'a' as int] == c; }
  }

  lemma CapitalLetters(c: char)
    ensures IsUpper(c) <==> c in CAPITAL_LETTERS
  {
    if IsUpper(c) { assert CAPITAL_LETTERS[c as int - 'A' as int] == c; }
  }

  lemma Digits(c: char)
    ensures IsDigit(c) <==> c in DIGITS
  {
    if IsDigit(c) { assert DIGITS[c as int - '0' as int] == c; }
  }

  lemma LettersAndDigits(c: char)
    ensures IsLower(c) <==> c in SMALL_LETTERS
    ensures IsUpper(c) <==> c in CAPITAL_LETTERS
    ensures IsDigit(c) <==> c in DIGITS
  {
    SmallLetters(c);
    CapitalLetters(c);
    Digits(c);
  }

  // Capital and small letters correspond place by place, and nothing else changes.
  lemma CasesCorrespond(c: char, k: nat)
    ensures k < 26 ==> LowerChar(CAPITAL_LETTERS[k]) == SMALL_LETTERS[k]
    ensures k < 26 ==> UpperChar(SMALL_LETTERS[k]) == CAPITAL_LETTERS[k]
    ensures c !in CAPITAL_LETTERS ==> LowerChar(c) == c
    ensures c !in SMALL_LETTERS ==> UpperChar(c) == c
  {
    SmallLetters(c);
    CapitalLetters(c);
    if k < 26 {
      assert CAPITAL_LETTERS[k] == ('A' as int + k) as char;
      assert SMALL_LETTERS[k] == ('a' as int + k) as char;
    }
  }
}
