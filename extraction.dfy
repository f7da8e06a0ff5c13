/**
  `DomainChecker.findExpirationDate` (src/domainChecker.js): three search
  strategies tried in a fixed priority order, each a first-hit search over its
  candidates. A candidate whose value is falsy or does not parse is skipped.
*/
module Extraction {
  import opened Wrappers
  import opened Text
  import opened Whois
  import DatePattern

  /** The field names of the direct strategy, in the order they are probed. */
  const DirectFieldNames: seq<string> := [
    "expiresOn",
    "expirationDate",
    "registryExpiryDate",
    "registrarRegistrationExpirationDate",
    "expires",
    "paid-till",
    "expiry"
  ]

  /**
    The case-insensitive field-name test
    `/(expir|renew|registr.*expir|expir.*date|valid.*until)/i`.
  */
  function MatchesExpiryPattern(name: string): (b: bool)
    // the alternatives `registr.*expir` and `expir.*date` add nothing to `expir`
    ensures b <==>
      var l := Lower(name);
      Contains(l, "expir") || Contains(l, "renew") || Follows(l, "valid", "until")
  {
    var l := Lower(name);
    Contains(l, "expir") || Contains(l, "renew") || Follows(l, "registr", "expir")
    || Follows(l, "expir", "date") || Follows(l, "valid", "until")
  }

  /** The name test of the substring strategy: lower-cased name includes "expir" or "renew". */
  function MentionsExpiry(name: string): (b: bool)
    // every field the substring scan considers was already offered to the name-pattern strategy
    ensures b ==> MatchesExpiryPattern(name)
  {
    var l := Lower(name);
    Contains(l, "expir") || Contains(l, "renew")
  }

  /** Generic prioritised search: the first candidate whose attempt yields a date. */
  function FirstHit<T>(xs: seq<T>, attempt: T -> Option<Time>): Option<Time> {
    if xs == [] then None
    else
      match attempt(xs[0])
      case Some(t) => Some(t)
      case None => FirstHit(xs[1..], attempt)
  }

  /** No candidate before index `n` yields a date. */
  predicate NoHitBefore<T>(xs: seq<T>, attempt: T -> Option<Time>, n: int)
    requires n <= |xs|
  {
    forall j :: 0 <= j < n ==> attempt(xs[j]).None?
  }

  /** Strategy 1 on one name: the bound value, if truthy, parsed. */
  function DirectAttempt(rec: Record, parse: Parser, name: string): Option<Time> {
    match FieldValue(rec, name)
    case None => None
    case Some(v) => if Truthy(v) then parse(v) else None
  }

  /** Strategy 2 on one field: a name matching the pattern and a truthy value, parsed. */
  function PatternAttempt(parse: Parser, f: Field): Option<Time> {
    if MatchesExpiryPattern(f.name) && Truthy(f.value) then parse(f.value) else None
  }

  /** Strategy 3 on one field: the first date-like substring of a string value, parsed. */
  function SubstringAttempt(parse: Parser, f: Field): Option<Time> {
    if f.value.Str? && MentionsExpiry(f.name) then
      match DatePattern.DateMatch(f.value.text)
      case None => None
      case Some(m) => parse(Str(m))
    else None
  }

  function DirectAttempts(rec: Record, parse: Parser): string -> Option<Time> {
    name => DirectAttempt(rec, parse, name)
  }

  function PatternAttempts(parse: Parser): Field -> Option<Time> {
    f => PatternAttempt(parse, f)
  }

  function SubstringAttempts(parse: Parser): Field -> Option<Time> {
    f => SubstringAttempt(parse, f)
  }

  function DirectStrategy(rec: Record, parse: Parser): Option<Time> {
    FirstHit(DirectFieldNames, DirectAttempts(rec, parse))
  }

  function PatternStrategy(rec: Record, parse: Parser): Option<Time> {
    FirstHit(rec, PatternAttempts(parse))
  }

  function SubstringStrategy(rec: Record, parse: Parser): Option<Time> {
    FirstHit(rec, SubstringAttempts(parse))
  }

  /** The date `findExpirationDate` returns; None stands for its `null`. */
  function Expiration(rec: Record, parse: Parser): (r: Option<Time>)
    ensures r.None? <==> DirectStrategy(rec, parse).None? && PatternStrategy(rec, parse).None? && SubstringStrategy(rec, parse).None?
    ensures DirectStrategy(rec, parse).Some? ==> r == DirectStrategy(rec, parse)
    ensures DirectStrategy(rec, parse).None? && PatternStrategy(rec, parse).Some? ==> r == PatternStrategy(rec, parse)
    ensures DirectStrategy(rec, parse).None? && PatternStrategy(rec, parse).None? ==> r == SubstringStrategy(rec, parse)
  {
    match DirectStrategy(rec, parse)
    case Some(t) => Some(t)
    case None =>
      match PatternStrategy(rec, parse)
      case Some(t) => Some(t)
      case None => SubstringStrategy(rec, parse)
  }

  // ---------------------------------------------------------------------------
  // The prioritised search

  /** The first candidate that yields a date decides the search. */
  lemma {:induction false} FirstHitAt<T>(xs: seq<T>, attempt: T -> Option<Time>, i: nat)
    requires i < |xs| && attempt(xs[i]).Some? && NoHitBefore(xs, attempt, i)
    ensures FirstHit(xs, attempt) == attempt(xs[i])
  {
    if i > 0 {
      assert attempt(xs[0]).None?;
      assert NoHitBefore(xs[1..], attempt, i - 1) by {
        forall j | 0 <= j < i - 1 ensures attempt(xs[1..][j]).None? {
          assert xs[1..][j] == xs[j + 1];
        }
      }
      FirstHitAt(xs[1..], attempt, i - 1);
    }
  }

  /** The search finds nothing exactly when no candidate yields a date. */
  lemma {:induction false} FirstHitNone<T>(xs: seq<T>, attempt: T -> Option<Time>)
    ensures FirstHit(xs, attempt).None? <==> NoHitBefore(xs, attempt, |xs|)
  {
    if xs != [] {
      FirstHitNone(xs[1..], attempt);
      if attempt(xs[0]).None? {
        assert NoHitBefore(xs, attempt, |xs|) <==> NoHitBefore(xs[1..], attempt, |xs| - 1) by {
          assert forall j :: 0 < j < |xs| ==> xs[j] == xs[1..][j - 1];
        }
      }
    }
  }

  /** A found date comes from some candidate, and every earlier candidate failed. */
  lemma {:induction false} FirstHitWitness<T>(xs: seq<T>, attempt: T -> Option<Time>)
    requires FirstHit(xs, attempt).Some?
    ensures exists i :: 0 <= i < |xs| && NoHitBefore(xs, attempt, i)
                        && attempt(xs[i]) == FirstHit(xs, attempt)
  {
    if attempt(xs[0]).Some? {
      assert NoHitBefore(xs, attempt, 0);
    } else {
      FirstHitWitness(xs[1..], attempt);
      var i :| 0 <= i < |xs| - 1 && NoHitBefore(xs[1..], attempt, i)
               && attempt(xs[1..][i]) == FirstHit(xs[1..], attempt);
      assert NoHitBefore(xs, attempt, i + 1) by {
        forall j | 0 <= j < i + 1 ensures attempt(xs[j]).None? {
          if j > 0 { assert xs[j] == xs[1..][j - 1]; }
        }
      }
      assert xs[i + 1] == xs[1..][i];
    }
  }

  lemma NoHitExtends<T>(xs: seq<T>, attempt: T -> Option<Time>, i: nat)
    requires i < |xs| && NoHitBefore(xs, attempt, i) && attempt(xs[i]).None?
    ensures NoHitBefore(xs, attempt, i + 1)
  {
  }

  /** A candidate that yields nothing can be removed without changing the search. */
  lemma {:induction false} FirstHitSkips<T>(before: seq<T>, x: T, after: seq<T>, attempt: T -> Option<Time>)
    requires attempt(x).None?
    ensures FirstHit(before + [x] + after, attempt) == FirstHit(before + after, attempt)
  {
    if before == [] {
      assert before + [x] + after == [x] + after;
      assert ([x] + after)[1..] == after;
      assert before + after == after;
    } else {
      FirstHitSkips(before[1..], x, after, attempt);
      assert (before + [x] + after)[0] == before[0];
      assert (before + [x] + after)[1..] == before[1..] + [x] + after;
      assert (before + after)[0] == before[0];
      assert (before + after)[1..] == before[1..] + after;
    }
  }

  // ---------------------------------------------------------------------------
  // The search as the source runs it

  /**
    `findExpirationDate`: the three loops in order, each returning early with
    the first date it finds, proved to return the date the prioritised search
    specifies.
  */
  method FindExpirationDate(rec: Record, parse: Parser) returns (r: Option<Time>)
    ensures r == Expiration(rec, parse)
  {
    r := SearchDirectFields(rec, parse);
    if r.Some? {
      return;
    }
    r := SearchMatchingNames(rec, parse);
    if r.Some? {
      return;
    }
    r := SearchFieldValues(rec, parse);
  }

  /** Loop 1 of `findExpirationDate`: the fixed list of field names. */
  method SearchDirectFields(rec: Record, parse: Parser) returns (r: Option<Time>)
    ensures r == DirectStrategy(rec, parse)
  {
    for k := 0 to |DirectFieldNames|
      invariant NoHitBefore(DirectFieldNames, DirectAttempts(rec, parse), k)
    {
      var value := FieldValue(rec, DirectFieldNames[k]);
      if value.Some? && Truthy(value.value) {
        var date := parse(value.value);
        if date.Some? {
          FirstHitAt(DirectFieldNames, DirectAttempts(rec, parse), k);
          return date;
        }
      }
    }
    FirstHitNone(DirectFieldNames, DirectAttempts(rec, parse));
    r := None;
  }

  /** Loop 2 of `findExpirationDate`: every field whose name matches the expiry pattern. */
  method SearchMatchingNames(rec: Record, parse: Parser) returns (r: Option<Time>)
    ensures r == PatternStrategy(rec, parse)
  {
    for i := 0 to |rec|
      invariant NoHitBefore(rec, PatternAttempts(parse), i)
    {
      var field := rec[i];
      if MatchesExpiryPattern(field.name) && Truthy(field.value) {
        var date := parse(field.value);
        if date.Some? {
          FirstHitAt(rec, PatternAttempts(parse), i);
          return date;
        }
      }
    }
    FirstHitNone(rec, PatternAttempts(parse));
    r := None;
  }

  /** Loop 3 of `findExpirationDate`: a date-like substring of a string value under an expiry-like name. */
  method SearchFieldValues(rec: Record, parse: Parser) returns (r: Option<Time>)
    ensures r == SubstringStrategy(rec, parse)
  {
    for i := 0 to |rec|
      invariant NoHitBefore(rec, SubstringAttempts(parse), i)
    {
      var field := rec[i];
      if field.value.Str? && MentionsExpiry(field.name) {
        var dateMatch := DatePattern.DateMatch(field.value.text);
        if dateMatch.Some? {
          var date := parse(Str(dateMatch.value));
          if date.Some? {
            FirstHitAt(rec, SubstringAttempts(parse), i);
            return date;
          }
        }
      }
      assert SubstringAttempts(parse)(rec[i]).None?;
      NoHitExtends(rec, SubstringAttempts(parse), i);
    }
    FirstHitNone(rec, SubstringAttempts(parse));
    r := None;
  }

  // ---------------------------------------------------------------------------
  // Properties of the extraction

  /**
    A direct field name whose value is truthy and parses wins as soon as every
    earlier name in the list has failed, whatever other fields the record holds.
  */
  lemma DirectFieldWins(rec: Record, parse: Parser, k: nat)
    requires k < |DirectFieldNames|
    requires DirectAttempt(rec, parse, DirectFieldNames[k]).Some?
    requires forall j :: 0 <= j < k ==> DirectAttempt(rec, parse, DirectFieldNames[j]).None?
    ensures Expiration(rec, parse) == DirectAttempt(rec, parse, DirectFieldNames[k])
  {
    FirstHitAt(DirectFieldNames, DirectAttempts(rec, parse), k);
    assert DirectStrategy(rec, parse) == DirectAttempt(rec, parse, DirectFieldNames[k]);
  }

  /**
    The name-pattern strategy runs only when no direct name succeeded, and then
    the first field in key order whose name matches and whose value parses wins.
  */
  lemma PatternFieldWins(rec: Record, parse: Parser, i: nat)
    requires forall k :: 0 <= k < |DirectFieldNames| ==> DirectAttempt(rec, parse, DirectFieldNames[k]).None?
    requires i < |rec| && PatternAttempt(parse, rec[i]).Some?
    requires forall j :: 0 <= j < i ==> PatternAttempt(parse, rec[j]).None?
    ensures Expiration(rec, parse) == PatternAttempt(parse, rec[i])
  {
    FirstHitNone(DirectFieldNames, DirectAttempts(rec, parse));
    FirstHitAt(rec, PatternAttempts(parse), i);
  }

  /**
    The substring scan runs only when both earlier strategies failed, and then
    the first field whose value holds a parsable date-like substring wins.
  */
  lemma SubstringFieldWins(rec: Record, parse: Parser, i: nat)
    requires forall k :: 0 <= k < |DirectFieldNames| ==> DirectAttempt(rec, parse, DirectFieldNames[k]).None?
    requires forall j :: 0 <= j < |rec| ==> PatternAttempt(parse, rec[j]).None?
    requires i < |rec| && SubstringAttempt(parse, rec[i]).Some?
    requires forall j :: 0 <= j < i ==> SubstringAttempt(parse, rec[j]).None?
    ensures Expiration(rec, parse) == SubstringAttempt(parse, rec[i])
  {
    FirstHitNone(DirectFieldNames, DirectAttempts(rec, parse));
    FirstHitNone(rec, PatternAttempts(parse));
    FirstHitAt(rec, SubstringAttempts(parse), i);
  }

  /** The search returns null exactly when no candidate of any strategy yields a date. */
  lemma NotFoundIffNoCandidate(rec: Record, parse: Parser)
    ensures Expiration(rec, parse).None? <==>
      && (forall k :: 0 <= k < |DirectFieldNames| ==> DirectAttempt(rec, parse, DirectFieldNames[k]).None?)
      && (forall j :: 0 <= j < |rec| ==> PatternAttempt(parse, rec[j]).None?)
      && (forall j :: 0 <= j < |rec| ==> SubstringAttempt(parse, rec[j]).None?)
  {
    FirstHitNone(DirectFieldNames, DirectAttempts(rec, parse));
    FirstHitNone(rec, PatternAttempts(parse));
    FirstHitNone(rec, SubstringAttempts(parse));
  }

  /** A found date is what some candidate's value parses to; nothing is invented. */
  lemma FoundDateComesFromACandidate(rec: Record, parse: Parser)
    requires Expiration(rec, parse).Some?
    ensures || (exists k :: 0 <= k < |DirectFieldNames| && DirectAttempt(rec, parse, DirectFieldNames[k]) == Expiration(rec, parse))
            || (exists j :: 0 <= j < |rec| && PatternAttempt(parse, rec[j]) == Expiration(rec, parse))
            || (exists j :: 0 <= j < |rec| && SubstringAttempt(parse, rec[j]) == Expiration(rec, parse))
  {
    if DirectStrategy(rec, parse).Some? {
      FirstHitWitness(DirectFieldNames, DirectAttempts(rec, parse));
    } else if PatternStrategy(rec, parse).Some? {
      FirstHitWitness(rec, PatternAttempts(parse));
    } else {
      FirstHitWitness(rec, SubstringAttempts(parse));
    }
  }

  /**
    A field whose value is falsy or does not parse, and holds no parsable
    date-like substring, is skipped: removing it changes nothing.
  */
  lemma DeadFieldIsSkipped(before: Record, f: Field, after: Record, parse: Parser)
    requires forall g :: g in before + after ==> g.name != f.name
    requires !Truthy(f.value) || parse(f.value).None?
    requires SubstringAttempt(parse, f).None?
    ensures Expiration(before + [f] + after, parse) == Expiration(before + after, parse)
  {
    var rec, rest := before + [f] + after, before + after;
    forall name | name in DirectFieldNames
      ensures DirectAttempt(rec, parse, name) == DirectAttempt(rest, parse, name)
    {
      FieldValueSkips(before, f, after, name);
    }
    assert DirectStrategy(rec, parse) == DirectStrategy(rest, parse) by {
      FirstHitSameAttempts(DirectFieldNames, DirectAttempts(rec, parse), DirectAttempts(rest, parse));
    }
    FirstHitSkips(before, f, after, PatternAttempts(parse));
    FirstHitSkips(before, f, after, SubstringAttempts(parse));
  }

  /** A name bound nowhere else reads the same with or without the extra field, up to that field's value. */
  lemma FieldValueSkips(before: Record, f: Field, after: Record, name: string)
    requires forall g :: g in before + after ==> g.name != f.name
    ensures name != f.name ==> FieldValue(before + [f] + after, name) == FieldValue(before + after, name)
    ensures name == f.name ==> FieldValue(before + [f] + after, name) == Some(f.value)
                               && FieldValue(before + after, name) == None
  {
    FieldValueAppend(before + [f], after, name);
    FieldValueAppend(before, [f], name);
    FieldValueAppend(before, after, name);
    if name == f.name {
      assert forall g :: g in before ==> g in before + after;
      assert forall g :: g in after ==> g in before + after;
    }
  }

  /** Looking a name up in a concatenation looks in the first part, then the second. */
  lemma {:induction false} FieldValueAppend(a: Record, b: Record, name: string)
    ensures FieldValue(a + b, name) == if FieldValue(a, name).Some? then FieldValue(a, name) else FieldValue(b, name)
  {
    if a == [] {
      assert a + b == b;
    } else {
      assert (a + b)[0] == a[0];
      assert (a + b)[1..] == a[1..] + b;
      FieldValueAppend(a[1..], b, name);
    }
  }

  /** Two attempt functions that agree on every candidate give the same search. */
  lemma {:induction false} FirstHitSameAttempts<T>(xs: seq<T>, a1: T -> Option<Time>, a2: T -> Option<Time>)
    requires forall x :: x in xs ==> a1(x) == a2(x)
    ensures FirstHit(xs, a1) == FirstHit(xs, a2)
  {
    if xs != [] {
      assert xs[0] in xs;
      assert forall x :: x in xs[1..] ==> x in xs;
      FirstHitSameAttempts(xs[1..], a1, a2);
    }
  }

  /** The record `{"registryExpiryDate": "2026-03-01T00:00:00Z"}` yields that instant. */
  lemma RegistryExpiryDateExample(parse: Parser, t: Time)
    requires parse(Str("2026-03-01T00:00:00Z")) == Some(t)
    ensures Expiration([Field("registryExpiryDate", Str("2026-03-01T00:00:00Z"))], parse) == Some(t)
  {
  }

  /**
    Non-string values stay apart: in `{"expiresOn": {}, "expires": 1767225600000}`
    the object is an invalid date and is skipped, and the number decides.
  */
  lemma NonStringValuesStayApart(parse: Parser, t: Time)
    requires parse(Other(0, true)) == None
    requires parse(Other(1, true)) == Some(t)
    ensures Expiration([Field("expiresOn", Other(0, true)), Field("expires", Other(1, true))], parse) == Some(t)
  {
    var rec := [Field("expiresOn", Other(0, true)), Field("expires", Other(1, true))];
    assert DirectFieldNames[4] == "expires";
    DirectFieldWins(rec, parse, 4);
  }
}
