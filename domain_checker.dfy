/**
  `DomainChecker` (src/domainChecker.js): turns one WHOIS answer into a status
  record, either the success triple or an error, and the day-count arithmetic.
*/
module DomainCheck {
  import opened Wrappers
  import opened Whois
  import opened Extraction

  /** `1000 * 60 * 60 * 24`: one day in milliseconds. */
  const DayMs: int := 1000 * 60 * 60 * 24

  const NotFoundMessage: string := "Could not find expiration date in WHOIS data"

  /** Either the success triple or the error message, never both. */
  datatype Outcome =
    | Expiry(expirationDate: Time, daysUntilExpiration: int, needsWarning: bool)
    | Failed(error: string)

  /** A domain's status record; `description` is absent until the check cycle copies it in. */
  datatype DomainStatus = DomainStatus(domain: string, outcome: Outcome, description: Option<string>)

  /**
    `calculateDaysUntilExpiration`: `Math.ceil((expiration - now) / DayMs)`.
    The result is the least whole number of days that covers the difference.
  */
  function DaysUntilExpiration(expiration: Time, now: Time): (days: int)
    ensures (days - 1) * DayMs < expiration - now <= days * DayMs
  {
    // Euclidean division of the negated difference, negated back, is the ceiling.
    -((now - expiration) / DayMs)
  }

  /** What `checkDomain` returns for a WHOIS outcome, a clock reading and a threshold. */
  function Evaluate(domain: string, lookup: Lookup, parse: Parser, now: Time, warningDays: int): (status: DomainStatus)
    ensures status.domain == domain && status.description == None
    ensures status.outcome.Failed? <==> lookup.LookupError? || Expiration(lookup.record, parse).None?
    ensures lookup.LookupError? ==> status.outcome == Failed(lookup.message)
    ensures lookup.Answer? && Expiration(lookup.record, parse).None? ==> status.outcome == Failed(NotFoundMessage)
    ensures status.outcome.Expiry? ==>
      var o := status.outcome;
      && Expiration(lookup.record, parse) == Some(o.expirationDate)
      && (o.daysUntilExpiration - 1) * DayMs < o.expirationDate - now <= o.daysUntilExpiration * DayMs
      && (o.needsWarning <==> o.daysUntilExpiration <= warningDays)
  {
    match lookup
    case LookupError(message) => DomainStatus(domain, Failed(message), None)
    case Answer(rec) =>
      match Expiration(rec, parse)
      case None => DomainStatus(domain, Failed(NotFoundMessage), None)
      case Some(expirationDate) =>
        var days := DaysUntilExpiration(expirationDate, now);
        DomainStatus(domain, Expiry(expirationDate, days, days <= warningDays), None)
  }

  /** The checker object; its only state is the threshold it was built with. */
  class DomainChecker {
    const warningDays: int

    constructor (warningDays: int)
      ensures this.warningDays == warningDays
    {
      this.warningDays := warningDays;
    }

    /**
      `checkDomain`: the WHOIS call's outcome is a parameter; a failed call or
      a failed extraction becomes an error record, anything else the triple.
    */
    method CheckDomain(domain: string, lookup: Lookup, parse: Parser, now: Time) returns (status: DomainStatus)
      ensures status == Evaluate(domain, lookup, parse, now, warningDays)
    {
      match lookup
      case LookupError(message) =>
        status := DomainStatus(domain, Failed(message), None);
      case Answer(rec) =>
        var expirationDate := FindExpirationDate(rec, parse);
        if expirationDate.None? {
          return DomainStatus(domain, Failed(NotFoundMessage), None);
        }
        var days := DaysUntilExpiration(expirationDate.value, now);
        status := DomainStatus(domain, Expiry(expirationDate.value, days, days <= warningDays), None);
    }
  }

  // ---------------------------------------------------------------------------
  // Properties of the day count

  /** The ceiling is unique: any whole number with the covering property is the day count. */
  lemma DaysUntilExpirationUnique(expiration: Time, now: Time, days: int)
    requires (days - 1) * DayMs < expiration - now <= days * DayMs
    ensures DaysUntilExpiration(expiration, now) == days
  {
  }

  /** An expiration exactly `k` days ahead (or behind, for negative `k`) gives `k`. */
  lemma WholeDays(now: Time, k: int)
    ensures DaysUntilExpiration(now + k * DayMs, now) == k
  {
  }

  /** Any positive remainder beyond `k` whole days rounds up to `k + 1`. */
  lemma RemainderRoundsUp(now: Time, k: int, rest: int)
    requires 0 < rest < DayMs
    ensures DaysUntilExpiration(now + k * DayMs + rest, now) == k + 1
  {
  }

  /** A date 100 days ahead with a 30-day threshold: 100 days, no warning. */
  lemma FarFromExpiryExample(domain: string, rec: Record, parse: Parser, now: Time)
    requires Expiration(rec, parse) == Some(now + 100 * DayMs)
    ensures Evaluate(domain, Answer(rec), parse, now, 30) == DomainStatus(domain, Expiry(now + 100 * DayMs, 100, false), None)
  {
  }

  /** A date 20 days ahead with a 30-day threshold: 20 days, warning. */
  lemma NearExpiryExample(domain: string, rec: Record, parse: Parser, now: Time)
    requires Expiration(rec, parse) == Some(now + 20 * DayMs)
    ensures Evaluate(domain, Answer(rec), parse, now, 30) == DomainStatus(domain, Expiry(now + 20 * DayMs, 20, true), None)
  {
  }
}
