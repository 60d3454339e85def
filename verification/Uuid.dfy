/**
 UUID text. The services accept either letter case on input (the pattern is matched case-insensitively), while a
 PostgreSQL `uuid` column always reads back the lower-case form.
 */
module Uuid {
  predicate IsHexDigit(c: char) {
    '0' <= c <= '9' || 'a' <= c <= 'f' || 'A' <= c <= 'F'
  }

  predicate IsHyphenAt(i: int) {
    i == 8 || i == 13 || i == 18 || i == 23
  }

  predicate IsUuid(s: string) {
    |s| == 36 && forall i :: 0 <= i < |s| ==> if IsHyphenAt(i) then s[i] == '-' else IsHexDigit(s[i])
  }

  function LowerChar(c: char): char {
    if 'A' <= c <= 'Z' then (c as int + 32) as char else c
  }

  /** The form in which a `uuid` column returns the identifier `s`. */
  function Canonical(s: string): string {
    seq(|s|, i requires 0 <= i < |s| => LowerChar(s[i]))
  }

  predicate IsCanonical(s: string) {
    Canonical(s) == s
  }

  predicate AllHex(s: string) {
    forall c :: c in s ==> c in "0123456789abcdefABCDEF"
  }

  /** Groups of 8, 4, 4, 4 and 12 hexadecimal digits in either case, separated by hyphens. */
  lemma UuidIsFiveGroups(s: string)
    ensures IsUuid(s) <==>
              && |s| == 36 && s[8] == '-' && s[13] == '-' && s[18] == '-' && s[23] == '-'
              && AllHex(s[0..8]) && AllHex(s[9..13]) && AllHex(s[14..18]) && AllHex(s[19..23]) && AllHex(s[24..36])
  {
    HexDigits();
    if |s| == 36 {
      assert forall i :: 0 <= i < 8 ==> s[i] == s[0..8][i];
      assert forall i :: 9 <= i < 13 ==> s[i] == s[9..13][i - 9];
      assert forall i :: 14 <= i < 18 ==> s[i] == s[14..18][i - 14];
      assert forall i :: 19 <= i < 23 ==> s[i] == s[19..23][i - 19];
      assert forall i :: 24 <= i < 36 ==> s[i] == s[24..36][i - 24];
    }
  }

  lemma HexDigits()
    ensures forall c :: IsHexDigit(c) <==> c in "0123456789abcdefABCDEF"
  {
    var hex := "0123456789abcdefABCDEF";
    assert forall i :: 0 <= i < 10 ==> hex[i] == ('0' as int + i) as char;
    assert forall i :: 10 <= i < 16 ==> hex[i] == ('a' as int + i - 10) as char;
    assert forall i :: 16 <= i < 22 ==> hex[i] == ('A' as int + i - 16) as char;
    forall c | IsHexDigit(c)
      ensures c in hex
    {
      var n := c as int;
      if c <= '9' {
        assert hex[n - '0' as int] == c;
      } else if c <= 'F' {
        assert hex[16 + n - 'A' as int] == c;
      } else {
        assert hex[10 + n - 'a' as int] == c;
      }
    }
  }

  /** The stored form of a UUID has the same digits, with the letters in lower case. */
  lemma CanonicalIsLowerCase(s: string)
    requires IsUuid(s)
    ensures |Canonical(s)| == |s|
    ensures forall i :: 0 <= i < |s| ==>
              if 'A' <= s[i] <= 'F' then Canonical(s)[i] as int - 'a' as int == s[i] as int - 'A' as int
              else Canonical(s)[i] == s[i]
  {
  }

  lemma CanonicalIsStable(s: string)
    ensures Canonical(Canonical(s)) == Canonical(s)
    ensures IsUuid(s) ==> IsUuid(Canonical(s))
  {
    var r := Canonical(s);
    assert forall i :: 0 <= i < |s| ==> Canonical(r)[i] == LowerChar(LowerChar(s[i])) == r[i];
  }
}
