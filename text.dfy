/**
  The few JavaScript string operations the monitor relies on, restricted to
  what its patterns can observe: ASCII case mapping, substring search and the
  character classes of its regular expressions.
*/
module Text {

  predicate IsDigit(c: char) { '0' <= c <= '9' }

  predicate IsAsciiLetter(c: char) { 'A' <= c <= 'Z' || 'a' <= c <= 'z' }

  /** The characters the regular-expression dot refuses to match. */
  predicate IsLineTerminator(c: char) {
    c == '\n' || c == '\r' || c == '\U{2028}' || c == '\U{2029}'
  }

  function LowerChar(c: char): char {
    if 'A' <= c <= 'Z' then (c as int + 32) as char else c
  }

  function UpperChar(c: char): char {
    if 'a' <= c <= 'z' then (c as int - 32) as char else c
  }

  /** Lower-cases every ASCII letter and leaves every other character alone. */
  function Lower(s: string): (r: string)
    ensures |r| == |s|
    ensures forall i :: 0 <= i < |s| ==> r[i] == LowerChar(s[i])
  {
    seq(|s|, i requires 0 <= i < |s| => LowerChar(s[i]))
  }

  /** Upper-cases every ASCII letter and leaves every other character alone. */
  function Upper(s: string): (r: string)
    ensures |r| == |s|
    ensures forall i :: 0 <= i < |s| ==> r[i] == UpperChar(s[i])
  {
    seq(|s|, i requires 0 <= i < |s| => UpperChar(s[i]))
  }

  /** `needle` occurs in `s` starting at index `i`. */
  predicate OccursAt(s: string, needle: string, i: int) {
    0 <= i && i + |needle| <= |s| && s[i..i + |needle|] == needle
  }

  /**
    Case-insensitive matching as the `/i` flag performs it, by comparing upper
    cases, finds a lower-case ASCII needle exactly where lower-casing the
    subject and matching plainly, as `toLowerCase().includes` does, finds it.
  */
  lemma LowerMatchIsCaseInsensitive(s: string, needle: string, i: int)
    requires forall k :: 0 <= k < |needle| ==> 'a' <= needle[k] <= 'z'
    ensures OccursAt(Lower(s), needle, i) <==> OccursAt(Upper(s), Upper(needle), i)
  {
    if 0 <= i && i + |needle| <= |s| {
      assert forall k :: 0 <= k < |needle| ==> (Lower(s)[i + k] == needle[k] <==> Upper(s)[i + k] == Upper(needle)[k]);
      assert OccursAt(Lower(s), needle, i) <==> forall k :: 0 <= k < |needle| ==> Lower(s)[i + k] == needle[k];
      assert OccursAt(Upper(s), Upper(needle), i) <==> forall k :: 0 <= k < |needle| ==> Upper(s)[i + k] == Upper(needle)[k];
    }
  }

  /** JavaScript's `s.includes(needle)`. */
  predicate Contains(s: string, needle: string) {
    exists i | 0 <= i <= |s| - |needle| :: OccursAt(s, needle, i)
  }

  /** The same over the whole subject: `toLowerCase().includes(needle)` is the `/i` test for `needle`. */
  lemma LowerContainsIsCaseInsensitive(s: string, needle: string)
    requires forall k :: 0 <= k < |needle| ==> 'a' <= needle[k] <= 'z'
    ensures Contains(Lower(s), needle) <==> Contains(Upper(s), Upper(needle))
  {
    forall i | 0 <= i <= |s| - |needle|
      ensures OccursAt(Lower(s), needle, i) <==> OccursAt(Upper(s), Upper(needle), i)
    {
      LowerMatchIsCaseInsensitive(s, needle, i);
    }
  }

  /** No character of `s[lo..hi]` is a line terminator. */
  predicate NoLineBreak(s: string, lo: int, hi: int)
    requires 0 <= lo <= hi <= |s|
  {
    forall k :: lo <= k < hi ==> !IsLineTerminator(s[k])
  }

  /**
    The regular expression `a.*b` matches somewhere in `s`: an occurrence of
    `a`, then a run of characters free of line terminators, then `b`.
  */
  predicate Follows(s: string, a: string, b: string) {
    exists i, j | 0 <= i && i + |a| <= j <= |s| - |b| ::
      OccursAt(s, a, i) && OccursAt(s, b, j) && NoLineBreak(s, i + |a|, j)
  }
}
