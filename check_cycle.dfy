/**
  The check cycle of src/index.js: `checkDomains` walks the configured domains
  in order, and `updateSchedule` replaces the scheduled job, cancelling the
  old one first, then runs one check at once.

  Everything the cycle does to the outside world is an event appended to a
  log: a notification sent, a cache write, a job cancelled, a job scheduled.
*/
module CheckCycle {
  import opened Wrappers
  import opened Whois
  import opened DomainCheck

  /** One entry of the configured domain list. */
  datatype DomainSpec = DomainSpec(domain: string, description: Option<string>)

  /** The parts of the two configuration files the cycle reads. */
  datatype Config = Config(warningDays: int, checkInterval: string, domains: seq<DomainSpec>)

  /** `Utils.loadConfig()`: the configuration, or the message of the error it threw. */
  datatype ConfigLoad = Loaded(config: Config) | LoadFailed(message: string)

  /** An opaque handle for a job handed to the scheduler. */
  type Job = nat

  datatype Event =
    | Notified(status: DomainStatus)
    | CacheWritten(statuses: seq<DomainStatus>)
    | JobCancelled(job: Job)
    | JobScheduled(job: Job, interval: string)

  /**
    The collaborators a cycle consults: the configuration store, the WHOIS
    service's answer for each name, the date parser, the clock, and whether
    the scheduler accepts an interval expression (it returns null otherwise).
  */
  datatype World = World(
    config: ConfigLoad,
    whois: string -> Lookup,
    parse: Parser,
    now: Time,
    accepts: string -> bool)

  /** The status `checkDomains` records for one configured domain. */
  function StatusOf(spec: DomainSpec, world: World, warningDays: int): (s: DomainStatus)
    ensures s.domain == spec.domain && s.description == spec.description
    ensures s.outcome == Evaluate(spec.domain, world.whois(spec.domain), world.parse, world.now, warningDays).outcome
  {
    Evaluate(spec.domain, world.whois(spec.domain), world.parse, world.now, warningDays).(description := spec.description)
  }

  /**
    The statuses `checkDomains` collects: one per configured domain, in
    configuration order, error statuses included; each carries its domain's
    name and configured description and the outcome of evaluating that domain.
  */
  function Results(specs: seq<DomainSpec>, world: World, warningDays: int): (rs: seq<DomainStatus>)
    ensures |rs| == |specs|
    ensures forall i :: 0 <= i < |specs| ==>
      && rs[i].domain == specs[i].domain
      && rs[i].description == specs[i].description
      && rs[i].outcome == Evaluate(specs[i].domain, world.whois(specs[i].domain), world.parse, world.now, warningDays).outcome
  {
    seq(|specs|, i requires 0 <= i < |specs| => StatusOf(specs[i], world, warningDays))
  }

  /** A status is notified when it carries no error and needs a warning. */
  predicate ShouldNotify(s: DomainStatus) {
    s.outcome.Expiry? && s.outcome.needsWarning
  }

  /** The notifications sent for a run's statuses, in order. */
  function Notifications(rs: seq<DomainStatus>): (es: seq<Event>)
    ensures |es| <= |rs|
    ensures forall e | e in es :: e.Notified? && ShouldNotify(e.status)
  {
    if rs == [] then []
    else
      var last := rs[|rs| - 1];
      Notifications(rs[..|rs| - 1]) + (if ShouldNotify(last) then [Notified(last)] else [])
  }

  lemma NotificationsStep(rs: seq<DomainStatus>, s: DomainStatus)
    ensures Notifications(rs + [s]) == Notifications(rs) + (if ShouldNotify(s) then [Notified(s)] else [])
  {
  }

  /** Everything one `checkDomains` run does to the outside world. */
  function CycleEvents(world: World): (es: seq<Event>)
    ensures world.config.LoadFailed? ==> es == []
    ensures world.config.Loaded? ==>
      var config := world.config.config;
      && 1 <= |es| <= |config.domains| + 1
      && es[|es| - 1] == CacheWritten(Results(config.domains, world, config.warningDays))
  {
    match world.config
    case LoadFailed(_) => []
    case Loaded(config) =>
      var rs := Results(config.domains, world, config.warningDays);
      Notifications(rs) + [CacheWritten(rs)]
  }

  lemma LoadedCycle(world: World, rs: seq<DomainStatus>)
    requires world.config.Loaded?
    requires rs == Results(world.config.config.domains, world, world.config.config.warningDays)
    ensures CycleEvents(world) == Notifications(rs) + [CacheWritten(rs)]
  {
  }

  /** The jobs scheduled and not since cancelled. */
  function Live(log: seq<Event>): set<Job> {
    if log == [] then {}
    else
      var before := Live(log[..|log| - 1]);
      match log[|log| - 1]
      case JobScheduled(job, _) => before + {job}
      case JobCancelled(job) => before - {job}
      case _ => before
    }

  function JobSet(job: Option<Job>): set<Job> {
    if job.Some? then {job.value} else {}
  }

  /** How many cache writes a log holds. */
  function CacheWrites(log: seq<Event>): nat {
    if log == [] then 0
    else CacheWrites(log[..|log| - 1]) + (if log[|log| - 1].CacheWritten? then 1 else 0)
  }

  /**
    The statuses a loop collects when the status it records for a domain is
    `status(spec)`; with `StatusOf` this is `Results`.
  */
  function Collect(specs: seq<DomainSpec>, status: DomainSpec -> DomainStatus): (rs: seq<DomainStatus>)
    ensures |rs| == |specs|
  {
    seq(|specs|, i requires 0 <= i < |specs| => status(specs[i]))
  }

  /** One pass of the loop in `checkDomains`: check the domain, then copy its description in. */
  method CheckEntry(checker: DomainChecker, spec: DomainSpec, world: World, ghost status: DomainSpec -> DomainStatus)
    returns (result: DomainStatus)
    requires forall s {:trigger StatusOf(s, world, checker.warningDays)} :: status(s) == StatusOf(s, world, checker.warningDays)
    ensures result == status(spec)
  {
    result := checker.CheckDomain(spec.domain, world.whois(spec.domain), world.parse, world.now);
    result := result.(description := spec.description);
    assert result == StatusOf(spec, world, checker.warningDays);
  }

  /** The module-level state of src/index.js: the current job handle and what has happened. */
  class Monitor {
    var currentJob: Option<Job>
    var nextJob: Job
    var events: seq<Event>

    /** At most one job is live, and it is the one `currentJob` holds. */
    ghost predicate Valid()
      reads this
    {
      Live(events) <= JobSet(currentJob)
    }

    constructor ()
      ensures Valid() && currentJob == None && events == []
    {
      currentJob := None;
      nextJob := 0;
      events := [];
    }

    /**
      `checkDomains`: one status per configured domain, the description copied
      from the configuration, a notification for each status without error
      that needs a warning, then one write of the whole array to the cache.
      A configuration that fails to load ends the run with nothing done.
    */
    method CheckDomains(world: World)
      requires Valid()
      modifies this`events
      ensures Valid()
      ensures events == old(events) + CycleEvents(world)
    {
      if world.config.LoadFailed? {
        // the error is caught and logged
        return;
      }
      var config := world.config.config;
      ghost var status := spec => StatusOf(spec, world, config.warningDays);
      var statusResults := CheckEach(config, world, status);
      assert statusResults == Results(config.domains, world, config.warningDays);
      events := events + [CacheWritten(statusResults)];
      LoadedCycle(world, statusResults);
      assert events == old(events) + CycleEvents(world);
      LiveIgnoresCycleEvents(old(events), world);
    }

    /**
      The loop of `checkDomains`: each domain in order, an error status kept
      but skipped for notification, a warning status notified at once.
    */
    method CheckEach(config: Config, world: World, ghost status: DomainSpec -> DomainStatus)
      returns (statusResults: seq<DomainStatus>)
      requires forall s {:trigger StatusOf(s, world, config.warningDays)} :: status(s) == StatusOf(s, world, config.warningDays)
      modifies this`events
      ensures statusResults == Collect(config.domains, status)
      ensures events == old(events) + Notifications(statusResults)
    {
      var checker := new DomainChecker(config.warningDays);
      statusResults := [];
      for i := 0 to |config.domains|
        invariant statusResults == Collect(config.domains[..i], status)
        invariant events == old(events) + Notifications(statusResults)
      {
        var result := CheckEntry(checker, config.domains[i], world, status);
        assert Collect(config.domains[..i + 1], status) == statusResults + [result];
        NotificationsStep(statusResults, result);
        statusResults := statusResults + [result];
        if result.outcome.Failed? && result.outcome.error != "" {
          // `if (result.error) continue;`
          continue;
        }
        if result.outcome.Expiry? && result.outcome.needsWarning {
          events := events + [Notified(result)];
        }
      }
      assert config.domains[..|config.domains|] == config.domains;
    }

    /**
      `updateSchedule`: cancel the current job if there is one, load the
      configuration (a failure propagates to the caller as `failure`), install
      a job for the configured interval, then run one check at once.
    */
    method UpdateSchedule(world: World) returns (failure: Option<string>)
      requires Valid()
      modifies this
      ensures Valid()
      ensures failure.Some? <==> world.config.LoadFailed?
      ensures world.config.LoadFailed? ==>
        && events == old(events) + Cancellation(old(currentJob))
        && currentJob == old(currentJob)
        && Live(events) == {}
      ensures world.config.Loaded? ==>
        var interval := world.config.config.checkInterval;
        && events == old(events) + Cancellation(old(currentJob)) + Installation(old(nextJob), interval, world.accepts(interval))
                      + CycleEvents(world)
        && currentJob == (if world.accepts(interval) then Some(old(nextJob)) else None)
        && Live(events) == JobSet(currentJob)
    {
      failure := Reschedule(world);
      if failure.Some? {
        return;
      }
      ghost var scheduled := events;
      CheckDomains(world);
      LiveIgnoresCycleEvents(scheduled, world);
    }

    /** The first half of `updateSchedule`: cancel, load the configuration, install the new job. */
    method Reschedule(world: World) returns (failure: Option<string>)
      requires Valid()
      modifies this
      ensures Valid()
      ensures failure.Some? <==> world.config.LoadFailed?
      ensures world.config.LoadFailed? ==>
        && events == old(events) + Cancellation(old(currentJob))
        && currentJob == old(currentJob)
        && Live(events) == {}
      ensures world.config.Loaded? ==>
        var interval := world.config.config.checkInterval;
        && events == old(events) + Cancellation(old(currentJob)) + Installation(old(nextJob), interval, world.accepts(interval))
        && currentJob == (if world.accepts(interval) then Some(old(nextJob)) else None)
        && Live(events) == JobSet(currentJob)
    {
      if currentJob.Some? {
        events := events + [JobCancelled(currentJob.value)];
      }
      assert Live(events) == {};
      if world.config.LoadFailed? {
        return Some(world.config.message);
      }
      var interval := world.config.config.checkInterval;
      if world.accepts(interval) {
        currentJob := Some(nextJob);
        events := events + [JobScheduled(nextJob, interval)];
        nextJob := nextJob + 1;
      } else {
        currentJob := None;
      }
      failure := None;
    }
  }

  /** The event `currentJob.cancel()` leaves, if there is a job. */
  function Cancellation(job: Option<Job>): seq<Event> {
    if job.Some? then [JobCancelled(job.value)] else []
  }

  /** The event installing a job, if the scheduler accepts the interval. */
  function Installation(job: Job, interval: string, accepted: bool): seq<Event> {
    if accepted then [JobScheduled(job, interval)] else []
  }

  // ---------------------------------------------------------------------------
  // Properties of the check cycle

  /**
    Notifications name only statuses of the run that need a warning, and all
    of them, each once per occurrence in the run.
  */
  lemma {:induction false} NotificationsExact(rs: seq<DomainStatus>)
    ensures |Notifications(rs)| <= |rs|
    ensures forall e :: e in Notifications(rs) ==> e.Notified? && e.status in rs && ShouldNotify(e.status)
    ensures forall s :: s in rs && ShouldNotify(s) ==> Notified(s) in Notifications(rs)
    ensures forall s :: multiset(Notifications(rs))[Notified(s)] == if ShouldNotify(s) then multiset(rs)[s] else 0
  {
    NotificationsMembers(rs);
    NotificationsCount(rs);
  }

  /** Notifications name statuses of the run that need a warning, and all of them. */
  lemma {:induction false} NotificationsMembers(rs: seq<DomainStatus>)
    ensures |Notifications(rs)| <= |rs|
    ensures forall e :: e in Notifications(rs) ==> e.Notified? && e.status in rs && ShouldNotify(e.status)
    ensures forall s :: s in rs && ShouldNotify(s) ==> Notified(s) in Notifications(rs)
  {
    if rs != [] {
      var init := rs[..|rs| - 1];
      NotificationsMembers(init);
      assert rs == init + [rs[|rs| - 1]];
    }
  }

  /** Each status is notified once per occurrence in the run if it needs a warning, and never otherwise. */
  lemma {:induction false} NotificationsCount(rs: seq<DomainStatus>)
    ensures forall s :: multiset(Notifications(rs))[Notified(s)] == if ShouldNotify(s) then multiset(rs)[s] else 0
  {
    if rs != [] {
      var init, last := rs[..|rs| - 1], rs[|rs| - 1];
      NotificationsCount(init);
      assert rs == init + [last];
      var sent := if ShouldNotify(last) then [Notified(last)] else [];
      assert multiset(Notifications(rs)) == multiset(Notifications(init)) + multiset(sent);
      assert multiset(rs) == multiset(init) + multiset{last};
    }
  }

  /**
    A loaded run notifies each status exactly as often as a configured domain
    has it and it needs a warning: at most once per domain, never for an error.
  */
  lemma NotifiedOncePerDomain(world: World, s: DomainStatus)
    requires world.config.Loaded?
    ensures var config := world.config.config;
      multiset(CycleEvents(world))[Notified(s)] ==
        if ShouldNotify(s) then multiset(Results(config.domains, world, config.warningDays))[s] else 0
  {
    var config := world.config.config;
    NotificationsExact(Results(config.domains, world, config.warningDays));
  }

  /** An error status is never notified, whatever else the run holds. */
  lemma ErrorsAreNotNotified(rs: seq<DomainStatus>, s: DomainStatus)
    requires s.outcome.Failed?
    ensures Notified(s) !in Notifications(rs)
  {
  }

  /** The notification events carry no cache write and no job change. */
  lemma {:induction false} NotificationsOnly(rs: seq<DomainStatus>)
    ensures forall e :: e in Notifications(rs) ==> e.Notified?
    ensures CacheWrites(Notifications(rs)) == 0
  {
    if rs != [] {
      var init := rs[..|rs| - 1];
      NotificationsOnly(init);
      var tail := if ShouldNotify(rs[|rs| - 1]) then [Notified(rs[|rs| - 1])] else [];
      CacheWritesAppend(Notifications(init), tail);
    }
  }

  /**
    A run whose configuration loads writes the cache exactly once, last, with
    the complete array of statuses; a run whose configuration fails writes
    nothing and checks nothing.
  */
  lemma CacheWrittenOnce(world: World)
    ensures world.config.LoadFailed? ==> CycleEvents(world) == []
    ensures world.config.Loaded? ==>
      var config := world.config.config;
      && CacheWrites(CycleEvents(world)) == 1
      && CycleEvents(world)[|CycleEvents(world)| - 1] == CacheWritten(Results(config.domains, world, config.warningDays))
  {
    if world.config.Loaded? {
      var config := world.config.config;
      var rs := Results(config.domains, world, config.warningDays);
      NotificationsOnly(rs);
      CacheWritesAppend(Notifications(rs), [CacheWritten(rs)]);
    }
  }

  /**
    An error status neither stops the run nor is notified: every configured
    domain, before or after a failing one, gets its own evaluated status.
  */
  lemma EveryDomainEvaluated(world: World, i: nat)
    requires world.config.Loaded? && i < |world.config.config.domains|
    ensures
      var config := world.config.config;
      var rs := Results(config.domains, world, config.warningDays);
      var spec := config.domains[i];
      && rs[i] == Evaluate(spec.domain, world.whois(spec.domain), world.parse, world.now, config.warningDays).(description := spec.description)
      && (Notified(rs[i]) in CycleEvents(world) <==> ShouldNotify(rs[i]))
  {
    var config := world.config.config;
    var rs := Results(config.domains, world, config.warningDays);
    NotificationsExact(rs);
    assert rs[i] in rs;
  }

  lemma {:induction false} CacheWritesAppend(a: seq<Event>, b: seq<Event>)
    ensures CacheWrites(a + b) == CacheWrites(a) + CacheWrites(b)
  {
    if b != [] {
      CacheWritesAppend(a, b[..|b| - 1]);
      assert (a + b)[..|a + b| - 1] == a + b[..|b| - 1];
    } else {
      assert a + b == a;
    }
  }

  /** Events that are not job events leave the live jobs alone. */
  lemma {:induction false} LiveAppend(log: seq<Event>, more: seq<Event>)
    requires forall e :: e in more ==> !e.JobScheduled? && !e.JobCancelled?
    ensures Live(log + more) == Live(log)
  {
    if more != [] {
      var init := more[..|more| - 1];
      assert forall e :: e in init ==> e in more;
      LiveAppend(log, init);
      assert (log + more)[..|log + more| - 1] == log + init;
      assert more[|more| - 1] in more;
    } else {
      assert log + more == log;
    }
  }

  /** A check run never changes which jobs are live. */
  lemma LiveIgnoresCycleEvents(log: seq<Event>, world: World)
    ensures Live(log + CycleEvents(world)) == Live(log)
  {
    if world.config.Loaded? {
      var config := world.config.config;
      NotificationsOnly(Results(config.domains, world, config.warningDays));
    }
    LiveAppend(log, CycleEvents(world));
  }

  /** The live jobs of a valid monitor number at most one. */
  lemma AtMostOneLiveJob(log: seq<Event>, current: Option<Job>)
    requires Live(log) <= JobSet(current)
    ensures |Live(log)| <= 1
  {
    if current.Some? {
      assert Live(log) <= {current.value};
      if Live(log) != {} {
        assert Live(log) == {current.value};
      }
    }
  }
}
