# Domain-expiry monitor: a verified model of its decision logic

The monitor reads a list of domain names, asks a WHOIS service about each one,
and digs the expiration date out of the free-form answer. It counts the whole
days left and sends a warning for every domain inside the configured threshold.
A cron-style scheduler re-runs the check. A small logger filters console output
by level.

This project models three parts of that program in Dafny and proves what each
promises:

- **Expiry extraction** (`src/domainChecker.js`)
  - The three-strategy search for a date in a WHOIS field map:
    - direct field names in a fixed order;
    - a case-insensitive name pattern, over the fields in enumeration order;
    - a date-shaped substring inside a field whose name mentions expiry or renewal.
  - The ceiling day count.
  - The status record that `checkDomain` builds, a success triple or an error.
  - Modules `Whois`, `Text`, `DatePattern`, `Extraction` and `DomainCheck`.
  - `findExpirationDate` is the method `Extraction.FindExpirationDate`, with its three loops and early returns. It is proved equal to the declarative search `Extraction.Expiration`, and the properties are proved about that function.
  - The substring regular expression is implemented concretely (`DatePattern`). It is proved to return the leftmost match and, at that position, the longest one.
- **Check cycle** (`src/index.js`), module `CheckCycle`
  - The module-level state, which is the current job handle, is a class `Monitor`.
  - Its effects on the world go into an event log: a notification, a cache write, a job cancelled, a job scheduled.
  - `checkDomains` is proved to append exactly the notifications and the one cache write that the specification functions `Results`, `Notifications` and `CycleEvents` describe.
  - `updateSchedule` is proved to keep at most one live scheduled job.
- **Log-level filter** (`src/logger.js`), module `Logging`
  - The five-level table and the rank comparison.
  - `setLevel`, including the message it emits and the level that filters it.
  - The padded level tag of `formatLog`.
  - The early exit of `task`.

The collaborators are parameters of the model (a `CheckCycle.World`):

- the configuration files;
- the WHOIS service's answer for each name;
- the `Date` parser with its validity test;
- the clock;
- whether the scheduler accepts an interval expression.

Two behaviours one might expect of such a monitor are absent from the code, and so from the model:

- There is no reuse of cached dates and no separate recalculation pass. `src/index.js` and `src/domainChecker.js` query WHOIS afresh for every domain on every cycle; the cache is only written.
- Warnings are not edge-triggered. Every run sends one for every warning-level status (`src/index.js:40-42`), even if the same warning went out on the previous run.

## Model

| member | source | states |
|---|---|---|
| Text.Lower | src/domainChecker.js:95 | `toLowerCase` on ASCII letters; `Text.LowerMatchIsCaseInsensitive` proves that matching a lower-case needle in the lower-cased name is the `/i` match of line 79 |
| Text.Upper | src/logger.js:49 | `toUpperCase` on ASCII letters; it is the side the `/i` flag compares on in `Text.LowerMatchIsCaseInsensitive`, and it gives the five table tags in `Logging.LevelTagsOfTheTable` |
| Text.LowerMatchIsCaseInsensitive | src/domainChecker.js:79-95 | for a lower-case ASCII needle, an occurrence in the lower-cased subject at a position is exactly a match there of the upper-cased needle against the upper-cased subject, which is how the `/i` flag compares letters |
| Text.LowerContainsIsCaseInsensitive | src/domainChecker.js:79-95 | `field.toLowerCase().includes(needle)` at line 95 holds exactly when the `/i` comparison at line 79 finds the needle anywhere in the field name |
| Whois.FieldValue | src/domainChecker.js:69-70 | `whoisData[name]`: a found value is bound to that name in the record; a missing one means no field has that name |
| DatePattern.NumericEnd | src/domainChecker.js:97 | the alternative `\d{4}[-/]\d{1,2}[-/]\d{1,2}` at one position: when it reports an end, the span matches with one of the four digit-group widths and ends where that width says |
| DatePattern.WordEnd | src/domainChecker.js:97 | the alternative `[A-Za-z]{3} \d{1,2} \d{4}` at one position: when it reports an end, the span matches with a one- or two-digit day and ends accordingly |
| DatePattern.MatchAt | src/domainChecker.js:97 | at one start position, the end of the longest span either alternative of the date pattern matches, or none when no span matches there |
| DatePattern.MatchFrom | src/domainChecker.js:97 | scanning from a position, the first start where the pattern matches and the longest span there; none when no later start matches |
| DatePattern.DateMatch | src/domainChecker.js:97-98 | `fieldValue.match(...)`: the substring is a leftmost-longest match of the pattern; no result means no span of the string has a date shape |
| Extraction.Expiration | src/domainChecker.js:56-111 | the search returns null if and only if all three strategies find nothing; a direct-field date takes priority over everything, and a name-pattern date over the substring scan; when both earlier strategies fail, the substring scan's date is the result |
| Extraction.FindExpirationDate | src/domainChecker.js:56-111 | the three loops with early returns give exactly the date of the prioritised search (direct names, then name pattern, then substring scan), or null |
| Extraction.SearchDirectFields | src/domainChecker.js:68-76 | the first loop returns the first truthy, parsable value among the seven names, in list order, or nothing |
| Extraction.SearchMatchingNames | src/domainChecker.js:81-89 | the second loop returns the first parsable truthy value, in key order, of a field whose name matches the pattern, or nothing |
| Extraction.SearchFieldValues | src/domainChecker.js:92-106 | the third loop returns, in key order, the first parsable date-shaped substring of a string value under an expiry-like name, or nothing |
| Extraction.FirstHitAt | src/domainChecker.js:68-76 | when every earlier candidate fails, the first candidate that yields a date decides the search |
| Extraction.FirstHitNone | src/domainChecker.js:81-89 | a strategy finds nothing exactly when no candidate yields a date |
| Extraction.FirstHitWitness | src/domainChecker.js:92-106 | a date a strategy returns comes from some candidate, and every earlier candidate failed |
| Extraction.FirstHitSkips | src/domainChecker.js:81-89 | a candidate that yields nothing can be removed without changing the search |
| Extraction.FirstHitSameAttempts | src/domainChecker.js:68-76 | two attempt rules that agree on every candidate give the same result |
| Extraction.DirectFieldWins | src/domainChecker.js:58-76 | a truthy, parsable direct field wins once every earlier name in the list has failed, whatever other fields the record holds |
| Extraction.PatternFieldWins | src/domainChecker.js:78-89 | when no direct name succeeds, the first field in key order whose name matches the pattern and whose value parses wins |
| Extraction.SubstringFieldWins | src/domainChecker.js:91-106 | when both earlier strategies fail, the first field holding a parsable date-shaped substring wins |
| Extraction.NotFoundIffNoCandidate | src/domainChecker.js:56-110 | the search returns null if and only if no candidate of any of the three strategies yields a date |
| Extraction.FoundDateComesFromACandidate | src/domainChecker.js:56-106 | a found date is what one candidate of one strategy parses to; nothing is invented |
| Extraction.DeadFieldIsSkipped | src/domainChecker.js:68-106 | a uniquely named field that is falsy or unparsable, with no parsable date-shaped substring, can be deleted without changing the result |
| Extraction.FieldValueSkips | src/domainChecker.js:69 | inserting a field with a fresh name changes the lookup of that name only |
| Extraction.FieldValueAppend | src/domainChecker.js:69 | looking a name up in two concatenated field lists searches the first list, then the second |
| Extraction.MatchesExpiryPattern | src/domainChecker.js:79-82 | the name pattern matches if and only if the lower-cased name contains "expir" or "renew", or "valid" followed on one line by "until"; the alternatives `registr.*expir` and `expir.*date` add nothing; the lower-casing stands for the `/i` flag by `Text.LowerContainsIsCaseInsensitive` |
| Extraction.MentionsExpiry | src/domainChecker.js:94-95 | every name the substring scan accepts also matches the name pattern, so each such field was already offered to the second strategy; its `toLowerCase().includes` agrees with the `/i` test by `Text.LowerContainsIsCaseInsensitive` |
| Extraction.NonStringValuesStayApart | src/domainChecker.js:68-76 | in `{"expiresOn": {}, "expires": 1767225600000}` the object is an invalid date and is skipped, and the number decides |
| Extraction.RegistryExpiryDateExample | src/domainChecker.js:61-73 | a record holding only `registryExpiryDate` yields the instant that value parses to |
| DomainCheck.DaysUntilExpiration | src/domainChecker.js:118-122 | `Math.ceil(diff / day)`: the result is the whole number of days `d` with `(d-1)*day < diff <= d*day` |
| DomainCheck.DaysUntilExpirationUnique | src/domainChecker.js:121 | any whole number with the covering property is the day count |
| DomainCheck.WholeDays | src/domainChecker.js:121 | an expiration exactly k days away (k may be negative) gives k |
| DomainCheck.RemainderRoundsUp | src/domainChecker.js:121 | k whole days plus any positive part of a day gives k + 1 |
| DomainCheck.Evaluate | src/domainChecker.js:19-48 | the status is an error exactly when the lookup failed (its message) or no date was found (the fixed message); otherwise it holds the extracted date, its ceiling day count, and a warning exactly when the count is at most the threshold |
| DomainCheck.DomainChecker.constructor | src/domainChecker.js:10-12 | the checker keeps the threshold it was given |
| DomainCheck.DomainChecker.CheckDomain | src/domainChecker.js:19-48 | `checkDomain` returns the status `Evaluate` specifies for the checker's threshold |
| DomainCheck.FarFromExpiryExample | src/domainChecker.js:34-41 | 100 days ahead with a 30-day threshold gives 100 days and no warning |
| DomainCheck.NearExpiryExample | src/domainChecker.js:34-41 | 20 days ahead with a 30-day threshold gives 20 days and a warning |
| CheckCycle.StatusOf | src/index.js:24-28 | one domain's status carries its name and configured description and the outcome `checkDomain` gives it |
| CheckCycle.Results | src/index.js:21-31 | one status per configured domain, in order, errors included; each carries the domain's name, its configured description and its evaluated outcome |
| CheckCycle.Notifications | src/index.js:33-42 | a run sends no more notifications than it has statuses, and only for statuses without error that need a warning; the count per status is `CheckCycle.NotificationsExact` |
| CheckCycle.CycleEvents | src/index.js:13-51 | a failed configuration load does nothing; a loaded run ends with one cache write holding every status, after no more notifications than domains; the count per domain is `CheckCycle.NotifiedOncePerDomain` |
| CheckCycle.CheckEntry | src/index.js:24-28 | one pass of the loop records, for its domain, the status `checkDomain` returns with the configured description copied in |
| CheckCycle.Monitor.CheckEach | src/index.js:21-43 | the loop collects every status, in order, and notifies, in order, exactly the statuses without error that need a warning |
| CheckCycle.Monitor.CheckDomains | src/index.js:13-51 | a run appends the notifications and then one cache write of all statuses; a configuration that fails to load appends nothing; the live jobs are unchanged |
| CheckCycle.Monitor.UpdateSchedule | src/index.js:57-68 | the old job is cancelled first. On a load failure the error propagates and no job is live. Otherwise a job is installed only when the interval is accepted, one check runs, and the live jobs are exactly the current one |
| CheckCycle.Monitor.Reschedule | src/index.js:58-64 | the old job is cancelled first; a load failure propagates and leaves no job live; otherwise a job is installed only when the scheduler accepts the interval, and it is the one live job |
| CheckCycle.Monitor.constructor | src/index.js:7 | the monitor starts with no job and nothing done |
| CheckCycle.NotificationsExact | src/index.js:33-42 | a notification is sent for a status if and only if it has no error and needs a warning; each status is notified exactly as many times as it occurs in the run when it needs a warning, and never otherwise |
| CheckCycle.NotificationsMembers | src/index.js:33-42 | the notified statuses are statuses of the run that need a warning, all of them, and no more notifications than statuses |
| CheckCycle.NotificationsCount | src/index.js:33-42 | the number of notifications of a status is its number of occurrences in the run if it needs a warning, and zero otherwise |
| CheckCycle.NotifiedOncePerDomain | src/index.js:21-42 | in a loaded run each status is notified once for every configured domain that has it and needs a warning, so at most once per domain, and never for an error |
| CheckCycle.ErrorsAreNotNotified | src/index.js:33-36 | an error status is never notified |
| CheckCycle.NotificationsOnly | src/index.js:40-42 | the loop only notifies: it writes no cache and touches no job |
| CheckCycle.CacheWrittenOnce | src/index.js:45-50 | a loaded run writes the cache exactly once, last, with every status; a failed load writes nothing |
| CheckCycle.EveryDomainEvaluated | src/index.js:23-43 | an error does not stop the run: every domain, before or after a failure, gets its own evaluated status, and it is notified exactly when it should be |
| CheckCycle.CacheWritesAppend | src/index.js:45-46 | the cache writes of two consecutive stretches of events add up |
| CheckCycle.LiveAppend | src/index.js:58-63 | events that neither schedule nor cancel a job leave the live jobs unchanged |
| CheckCycle.LiveIgnoresCycleEvents | src/index.js:13-51 | a check run never changes which jobs are live |
| CheckCycle.AtMostOneLiveJob | src/index.js:57-63 | a monitor whose live jobs lie within its current handle has at most one live job |
| Logging.Permits | src/logger.js:37 | only table levels can be compared; every table level shows its own messages and `none` messages; at `debug` every table level shows |
| Logging.LevelsAreRanked | src/logger.js:6-12 | the table holds exactly five levels, each ranked by its position in the list debug, info, warn, error, none |
| Logging.PermitsFollowsListing | src/logger.js:36-38 | a message shows if and only if its level comes no earlier than the current one in that list |
| Logging.ResolveLevel | src/logger.js:21-29 | the level installed is always one of the table's: the requested level when it is in the table, `info` otherwise |
| Logging.ResolveLevelAsWritten | src/logger.js:22-27 | the guard as written also accepts names inherited from `Object.prototype` |
| Logging.PrototypeNameSilencesLogger | src/logger.js:22-37 | as written, `setLevel("toString")` installs a level under which nothing shows, errors included |
| Logging.ResolveLevelAgreesOffPrototype | src/logger.js:22 | apart from inherited names, the corrected guard and the written one agree |
| Logging.ErrorsShowUnlessNone | src/logger.js:36-38 | at any level of the table, errors show if and only if the level is not `none` |
| Logging.LevelTag | src/logger.js:49 | the tag is the upper-cased level, right-padded with spaces to at least five characters |
| Logging.LevelTagsOfTheTable | src/logger.js:49 | the five levels get the tags DEBUG, INFO␠, WARN␠, ERROR and NONE␠ |
| Logging.FormatLog | src/logger.js:47-50 | the line is six characters longer than its timestamp, tag and message together, and it ends with the message |
| Logging.MessagesLineUp | src/logger.js:47-50 | at one timestamp, every level of the table starts its message at the same column |
| Logging.Logger.constructor | src/logger.js:15 | the logger starts at `info` |
| Logging.Logger.ShouldLog | src/logger.js:36-38 | only table levels can show; at `debug` every table level shows; at `none` only `none` does |
| Logging.Logger.SetLevel | src/logger.js:21-29 | the new level is the resolved one. A valid request is announced at info under the new level. An invalid one is reported at warn under the level in force before the call |
| Logging.Logger.Task | src/logger.js:113-117 | below debug, nothing is written and the callback is the no-op; at debug, the start line is written and the callback reports this task |
| Logging.ValidLoggerIsNeverMute | src/logger.js:21-38 | a logger whose level comes from the table always shows `none`-level output, and shows errors unless its level is `none` |
| Logging.NoneAndDebugExtremes | src/logger.js:36-38 | `none` hides debug, info, warn and error; `debug` shows all four |
| Logging.UnknownLevelNeverShown | src/logger.js:37 | a name outside the table is never shown, whatever the current level |
| Logging.DebugShowsOnlyAtDebug | src/logger.js:36-38 | debug output shows if and only if the current level is `debug` |
| Logging.PermitsIsTotalOrder | src/logger.js:6-12 | on the table the filter is total, antisymmetric and transitive |
| Logging.RaisingLevelHidesMore | src/logger.js:36-38 | raising the current level never makes a hidden message show |

## Left out

- The WHOIS network call and its JSON decoding. Each domain's answer, or the message of the error it threw, is a parameter.
- `new Date(value)` and the `isNaN(getTime())` test. This is an abstract parser from field values to an optional instant. A string value is given to it with its text; any other JSON value (number, array, object, boolean, null) is an opaque token with its truthiness, so the parser can treat distinct values differently but the model does not say how `Date` converts each kind.
- The clock. `checkDomain` reads `new Date()` once per domain; the model reads one instant per check run.
- `updateSchedule` and `checkDomains` each call `loadConfig`. The model reads one configuration for both.
- Floating point. Times are whole milliseconds, and `Math.ceil` of a double is the exact ceiling on integers.
- Configuration shape. `warningDays` is an integer. A missing `ntfy` section, or a `domains` list that is not a list, is not modelled.
- Console output of the checker and the check cycle, the notification's HTTP request, and the cache file. A sent notification and a cache write are events in a log.
- The scheduler's cron semantics. Firing a scheduled job is a later call of `CheckDomains`; the scheduler only accepts or rejects an interval.
- Asynchronous interleaving. A check run started by the scheduler while another is awaiting is not modelled; each run is atomic.
- The web interface and the browser-side scripts.
- Duplicate keys in a WHOIS answer. A field map binds each name once, and the model reads the first binding.
- `Text.Lower`, `Text.Upper` and the case-insensitive name pattern use ASCII case mapping. `Text.LowerMatchIsCaseInsensitive` relates the two sides over ASCII. It is exact for the pattern's ASCII needles because a non-Unicode `/i` never maps a non-ASCII character to an ASCII one, and `toLowerCase` never produces one from the characters that match these needles; the Unicode case tables themselves are not modelled.
- Logging.LevelTag: upper-cases ASCII letters only. A level name whose full Unicode upper case changes length (such as `ß`) gets a different tag in the code; the five table levels are ASCII.
- Logging.Logger.Task: the completion callback's own output and its `performance.now` duration are not modelled; only whether it is the no-op, and the task it reports.
- `Logger.debug`, `info`, `warn`, `error` and `section` are `ShouldLog` followed by console output. Their filtering is `ShouldLog`; the output is not modelled.
- Logging.Logger.SetLevel: follows the corrected guard (see Findings). For names inherited from `Object.prototype` the code installs that name instead.

## Findings

| source | as written | input that shows it | evidently intended | confidence | as-written member | corrected member |
|---|---|---|---|---|---|---|
| src/logger.js:22 | `LOG_LEVELS[level] !== undefined` also holds for names inherited from `Object.prototype`, so such a name becomes the current level; every later `shouldLog` then compares against a function or an object (NaN) and is false | `setLevel("toString")` (likewise `constructor`, `valueOf`, `__proto__`) | only the five table levels are accepted; any other name falls back to `info` | high; not executed | Logging.PrototypeNameSilencesLogger | Logging.ResolveLevel |
