/** ASCII letters and digits, and trimming white space as `str.strip` does. */
module Text {

  const UPPER := "ABCDEFGHIJKLMNOPQRSTUVWXYZ"
  const LOWER := "abcdefghijklmnopqrstuvwxyz"
  const DIGITS := "0123456789"

  lemma UpperAt(i: int)
    requires 0 <= i < 26
    ensures UPPER[i] == 'A' + i as char
  {
  }

  lemma LowerAt(i: int)
    requires 0 <= i < 26
    ensures LOWER[i] == 'a' + i as char
  {
  }

  lemma DigitAt(i: int)
    requires 0 <= i < 10
    ensures DIGITS[i] == '0' + i as char
  {
  }

  lemma InLower(c: char)
    ensures c in LOWER <==> 'a' <= c <= 'z'
  {
    if 'a' <= c <= 'z' { LowerAt(c as int - 'a' as int); }
  }

  lemma InDigits(c: char)
    ensures c in DIGITS <==> '0' <= c <= '9'
  {
    if '0' <= c <= '9' { DigitAt(c as int - '0' as int); }
  }

  predicate IsLetter(c: char) {
    'a' <= c <= 'z' || 'A' <= c <= 'Z'
  }

  predicate IsSpace(c: char) {
    var n := c as int;
    || 9 <= n <= 13 || 28 <= n <= 32 || n == 0x85 || n == 0xA0 || n == 0x1680 || 0x2000 <= n <= 0x200A
    || n == 0x2028 || n == 0x2029 || n == 0x202F || n == 0x205F || n == 0x3000
  }

  function StripLeft(s: string): string {
    if s != "" && IsSpace(s[0]) then StripLeft(s[1..]) else s
  }

  function StripRight(s: string): string {
    if s != "" && IsSpace(s[|s| - 1]) then StripRight(s[..|s| - 1]) else s
  }

  function Strip(s: string): string {
    StripRight(StripLeft(s))
  }

  lemma {:induction false} StripLeftOf(before: string, s: string)
    requires s != "" && !IsSpace(s[0])
    requires forall c :: c in before ==> IsSpace(c)
    ensures StripLeft(before + s) == s
  {
    if before == "" {
      assert before + s == s;
    } else {
      assert before[0] in before;
      assert (before + s)[1..] == before[1..] + s;
      StripLeftOf(before[1..], s);
    }
  }

  lemma {:induction false} StripRightOf(s: string, after: string)
    requires s != "" && !IsSpace(s[|s| - 1])
    requires forall c :: c in after ==> IsSpace(c)
    ensures StripRight(s + after) == s
  {
    if after == "" {
      assert s + after == s;
    } else {
      assert after[|after| - 1] in after;
      assert (s + after)[..|s + after| - 1] == s + after[..|after| - 1];
      StripRightOf(s, after[..|after| - 1]);
    }
  }

  /** Stripping takes the white space around a text and nothing else. */
  lemma StripOf(before: string, s: string, after: string)
    requires s != "" && !IsSpace(s[0]) && !IsSpace(s[|s| - 1])
    requires forall c :: c in before + after ==> IsSpace(c)
    ensures Strip(before + s + after) == s
  {
    assert before + s + after == before + (s + after);
    assert forall c :: c in before ==> c in before + after;
    assert forall c :: c in after ==> c in before + after;
    StripLeftOf(before, s + after);
    StripRightOf(s, after);
  }
}
