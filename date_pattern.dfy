/**
  The date-like substring search of the last extraction strategy: the first
  match of the regular expression

    \d{4}[-/]\d{1,2}[-/]\d{1,2}|[A-Za-z]{3} \d{1,2} \d{4}

  in a string. Shapes are stated on a span `s[i..e]`; the matcher is proved to
  return the leftmost span and, at that position, the longest one, which is
  what the backtracking engine's left-to-right, greedy-first order yields.
*/
module DatePattern {
  import opened Wrappers
  import opened Text

  predicate DigitsAt(s: string, i: int, n: nat) {
    0 <= i && i + n <= |s| && forall k :: i <= k < i + n ==> IsDigit(s[k])
  }

  predicate LettersAt(s: string, i: int, n: nat) {
    0 <= i && i + n <= |s| && forall k :: i <= k < i + n ==> IsAsciiLetter(s[k])
  }

  /** The class `[-/]`. */
  predicate SepAt(s: string, i: int) {
    0 <= i < |s| && (s[i] == '-' || s[i] == '/')
  }

  predicate SpaceAt(s: string, i: int) {
    0 <= i < |s| && s[i] == ' '
  }

  /** `\d{4}[-/]\d{a}[-/]\d{b}` matches at `i`; the span ends at `i + 6 + a + b`. */
  predicate NumericDateAt(s: string, i: int, a: nat, b: nat) {
    DigitsAt(s, i, 4) && SepAt(s, i + 4) && DigitsAt(s, i + 5, a)
    && SepAt(s, i + 5 + a) && DigitsAt(s, i + 6 + a, b)
  }

  /** `[A-Za-z]{3} \d{a} \d{4}` matches at `i`; the span ends at `i + 9 + a`. */
  predicate WordDateAt(s: string, i: int, a: nat) {
    LettersAt(s, i, 3) && SpaceAt(s, i + 3) && DigitsAt(s, i + 4, a)
    && SpaceAt(s, i + 4 + a) && DigitsAt(s, i + 5 + a, 4)
  }

  /** Some alternative of the pattern matches exactly `s[i..e]`. */
  predicate ShapeAt(s: string, i: int, e: int) {
    (exists a, b | 1 <= a <= 2 && 1 <= b <= 2 :: NumericDateAt(s, i, a, b) && e == i + 6 + a + b)
    || (exists a | 1 <= a <= 2 :: WordDateAt(s, i, a) && e == i + 9 + a)
  }

  /** `s[i..e]` is the match `String.prototype.match` reports. */
  ghost predicate LeftmostLongest(s: string, i: int, e: int) {
    ShapeAt(s, i, e)
    && (forall k, e' :: 0 <= k < i ==> !ShapeAt(s, k, e'))
    && (forall e' :: ShapeAt(s, i, e') ==> e' <= e)
  }

  /** The first alternative tried at `i`: both digit groups greedy, backtracking to one digit. */
  function NumericEnd(s: string, i: nat): (r: Option<nat>)
    ensures r.Some? ==>
      || (NumericDateAt(s, i, 1, 1) && r.value == i + 8)
      || (NumericDateAt(s, i, 1, 2) && r.value == i + 9)
      || (NumericDateAt(s, i, 2, 1) && r.value == i + 9)
      || (NumericDateAt(s, i, 2, 2) && r.value == i + 10)
  {
    if !(DigitsAt(s, i, 4) && SepAt(s, i + 4)) then None
    else
      var j := i + 5;
      var a := if DigitsAt(s, j, 2) && SepAt(s, j + 2) then 2
               else if DigitsAt(s, j, 1) && SepAt(s, j + 1) then 1
               else 0;
      if a == 0 then None
      else if DigitsAt(s, j + a + 1, 2) then Some(j + a + 3)
      else if DigitsAt(s, j + a + 1, 1) then Some(j + a + 2)
      else None
  }

  /** The second alternative tried at `i`. */
  function WordEnd(s: string, i: nat): (r: Option<nat>)
    ensures r.Some? ==> (WordDateAt(s, i, 1) && r.value == i + 10) || (WordDateAt(s, i, 2) && r.value == i + 11)
  {
    if !(LettersAt(s, i, 3) && SpaceAt(s, i + 3)) then None
    else
      var j := i + 4;
      var a := if DigitsAt(s, j, 2) && SpaceAt(s, j + 2) then 2
               else if DigitsAt(s, j, 1) && SpaceAt(s, j + 1) then 1
               else 0;
      if a == 0 then None
      else if DigitsAt(s, j + a + 1, 4) then Some(j + a + 5)
      else None
  }

  /** The end of the match the engine finds when it starts at `i`, if any. */
  function MatchAt(s: string, i: nat): (r: Option<nat>)
    ensures r.Some? ==> ShapeAt(s, i, r.value) && forall e :: ShapeAt(s, i, e) ==> e <= r.value
    ensures r.None? ==> forall e :: !ShapeAt(s, i, e)
  {
    match NumericEnd(s, i)
    case Some(e) => Some(e)
    case None => WordEnd(s, i)
  }

  /** The engine's scan of start positions `i`, `i + 1`, ... */
  function MatchFrom(s: string, i: nat): (r: Option<(nat, nat)>)
    requires i <= |s|
    decreases |s| - i
    ensures r.Some? ==>
      i <= r.value.0 && ShapeAt(s, r.value.0, r.value.1)
      && (forall k, e :: i <= k < r.value.0 ==> !ShapeAt(s, k, e))
      && (forall e :: ShapeAt(s, r.value.0, e) ==> e <= r.value.1)
    ensures r.None? ==> forall k, e :: i <= k ==> !ShapeAt(s, k, e)
  {
    if i == |s| then None
    else
      match MatchAt(s, i)
      case Some(e) => Some((i, e))
      case None => MatchFrom(s, i + 1)
  }

  /** `s.match(pattern)[0]`, or None when `match` returns null. */
  function DateMatch(s: string): (r: Option<string>)
    ensures r.Some? ==> exists i, e | LeftmostLongest(s, i, e) :: r.value == s[i..e]
    ensures r.None? ==> forall i, e :: !ShapeAt(s, i, e)
  {
    match MatchFrom(s, 0)
    case None => None
    case Some((i, e)) => Some(s[i..e])
  }
}
