/** Text helpers: ASCII lower-casing (`str.lower()`), substring search (`in`),
    decimal rendering of naturals, and the number formats the messages use. */
module Text {

  /** Lower-cases one ASCII letter and leaves every other character alone. */
  function LowerChar(c: char): char
  {
    if 'A' <= c <= 'Z' then (c as int + 32) as char else c
  }

  /** `s.lower()`, restricted to ASCII letters. */
  function Lower(s: string): (r: string)
    ensures |r| == |s|
  {
    seq(|s|, i requires 0 <= i < |s| => LowerChar(s[i]))
  }

  lemma LowerAppend(a: string, b: string)
    ensures Lower(a + b) == Lower(a) + Lower(b)
  {
    assert forall i :: 0 <= i < |a + b| ==> Lower(a + b)[i] == (Lower(a) + Lower(b))[i];
  }

  predicate IsPrefix(p: string, s: string)
  {
    |p| <= |s| && s[..|p|] == p
  }

  /** `sub in s`: some position of `s` starts a copy of `sub`. */
  predicate Contains(s: string, sub: string)
    decreases |s|
  {
    IsPrefix(sub, s) || (|s| > 0 && Contains(s[1..], sub))
  }

  /** Lower-casing leaves text without capital letters unchanged. */
  lemma LowerOfLowercase(s: string)
    requires forall i :: 0 <= i < |s| ==> !('A' <= s[i] <= 'Z')
    ensures Lower(s) == s
  {
  }

  /** Every string contains itself. */
  lemma ContainsSelf(s: string)
    ensures Contains(s, s)
  {
    assert s[..|s|] == s;
  }

  /** Text put in front keeps every match. */
  lemma {:induction false} ContainsAfter(a: string, b: string, sub: string)
    requires Contains(b, sub)
    ensures Contains(a + b, sub)
    decreases |a|
  {
    if a == [] {
      assert a + b == b;
    } else {
      ContainsAfter(a[1..], b, sub);
      assert (a + b)[1..] == a[1..] + b;
    }
  }

  /** Text put behind keeps every match. */
  lemma {:induction false} ContainsBefore(a: string, b: string, sub: string)
    requires Contains(a, sub)
    ensures Contains(a + b, sub)
    decreases |a|
  {
    if IsPrefix(sub, a) {
      assert (a + b)[..|sub|] == a[..|sub|];
    } else {
      ContainsBefore(a[1..], b, sub);
      assert (a + b)[1..] == a[1..] + b;
    }
  }

  /** A keyword without capitals is found, lower-cased, right after any text. */
  lemma LowerContainsKeywordAfter(a: string, keyword: string)
    requires forall i :: 0 <= i < |keyword| ==> !('A' <= keyword[i] <= 'Z')
    ensures Contains(Lower(a + keyword), keyword)
  {
    LowerAppend(a, keyword);
    LowerOfLowercase(keyword);
    ContainsSelf(keyword);
    ContainsAfter(Lower(a), keyword, keyword);
  }

  /** Text appended after a lower-cased match keeps it. */
  lemma LowerContainsExtend(a: string, b: string, sub: string)
    requires Contains(Lower(a), sub)
    ensures Contains(Lower(a + b), sub)
  {
    LowerAppend(a, b);
    ContainsBefore(Lower(a), Lower(b), sub);
  }

  function DigitChar(d: nat): char
    requires d < 10
  {
    "0123456789"[d]
  }

  /** `str(n)` for a natural number: its decimal digits, most significant first. */
  function NatToString(n: nat): (s: string)
    ensures |s| >= 1
    ensures forall i :: 0 <= i < |s| ==> '0' <= s[i] <= '9'
    decreases n
  {
    if n < 10 then [DigitChar(n)] else NatToString(n / 10) + [DigitChar(n % 10)]
  }

  /** The Python number formats the messages use, left uninterpreted:
      `f"{x:.1%}"`, `f"{x:.3f}"` and `str(x)`. */
  datatype NumberFormats = NumberFormats(
    percent: real -> string,
    fixed3: real -> string,
    str: real -> string)
}
