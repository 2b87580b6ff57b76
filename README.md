# Keep-alive: a Dafny model of the ping cycle and the handlers around it

Keep-alive watches web services so that free hosting platforms do not put them to sleep.
Its core is the ping cycle in `api/ping.js`. The cycle probes every stored service, is meant to
retry a failed probe once (as written it never does; see the first row under "## Findings"),
and updates each service's health fields in place: `status`,
`errorCount`, `lastError` and `responseTime`. It then folds the cycle into running counters
and returns a summary. The handlers around it manage several stored lists:

- the service list (`api/services.js`);
- the per-user monitor list, with its validation (`api/monitors.js`);
- the per-user dashboard figures (`api/stats.js`);
- the activity feed (`api/activity.js`);
- account creation (`api/auth/register.js`).

The browser dashboard (`public/app.js`) has its own helpers:

- input validation;
- the success rate;
- a retrying API call;
- uptime and duration texts;
- a bounded log;
- the tally of a manual ping.

Modules and files:

| file | module | models |
|---|---|---|
| basics.dfy | `Basics` | `Option` (null, absent or NaN), `Reply` (payload or HTTP error), `Check` (validation outcome) |
| seqs.dfy | `Seqs` | `filter`, counting and `slice(0, n)`, with the facts about them that the handlers rely on |
| text.dfy | `Text` | `trim`, ASCII `toLowerCase`, the decimal rendering of numbers, and `parseInt` without a radix |
| rounding.dfy | `Rounding` | `Math.round(p / q)` and `toFixed(1)`, computed exactly on integers |
| ping.dfy | `Ping` | api/ping.js |
| services.dfy | `Services` | api/services.js |
| monitors.dfy | `Monitors` | api/monitors.js |
| stats.dfy | `MonitorStats` | api/stats.js |
| activity.dfy | `ActivityFeed` | api/activity.js |
| register.dfy | `Registration` | api/auth/register.js |
| client.dfy | `Client` | the helpers of public/app.js |

Modelling choices:

- **What is a parameter.** The network, the clock, `navigator.onLine`, `validator.isURL`,
  `validator.isEmail`, `new URL()` and `bcrypt.hash` are all parameters. A probe attempt is
  a `Probe`: a response status and text, or a thrown error with its name, code and message.
  Attempt number `k` observes `network(k)`.
- **Concurrency.** `Promise.allSettled` becomes one `Settled` value per service index:
  `Fulfilled(result)` or `Rejected(message)`.
- **The stores.** Each store is a class with a `seq` or `map` field. The handler's loop
  updates an `array` of service records in place.
- **Two record shapes.** The `keepalive:services` records (`Ping.ServiceRecord`, camelCase
  keys) and the `keepalive:monitors` records (`Monitors.Monitor`, snake_case keys) are kept
  as two separate datatypes, as in the source.

What the cycle does not do:

- A successful probe leaves `lastError` as it was (api/ping.js:75-80).
- A failed probe leaves `responseTime` as it was (api/ping.js:81-86).
- No code emits activity events. `api/ping.js` writes only the services and the stats, so
  the model has no event emission, and `ActivityFeed` only reads stored events.
- The ping handler pings the global `keepalive:services` list, not a user's monitors, and
  that is what `Ping.RunCycle` models.

## Model

| member | source | states |
|---|---|---|
| Seqs.Filter | api/ping.js:245-256 | the kept elements are exactly those of the input that pass, none is invented, and there are never more of them than in the input |
| Seqs.Take | api/activity.js:59 | `slice(0, n)` is a prefix of the input, of length `min(n, |s|)` |
| Text.Trim | api/monitors.js:18 | `trim()` is the infix after the leading whitespace, with only whitespace after it, and it neither starts nor ends with whitespace |
| Text.ToLower | api/monitors.js:143 | `toLowerCase()` keeps the length and lower-cases each ASCII letter, leaving every other character as it is |
| Text.ToLowerIdempotent | api/auth/register.js:66-80 | lower-casing an already lower-cased email changes nothing |
| Text.NatToDecimal | api/ping.js:188 | a number renders as a non-empty run of decimal digits with no leading zero |
| Text.ParseIntRoundTrip | public/app.js:821-827 | `parseInt` reads back exactly the integer that `toString` wrote, negative ones included |
| Text.ParseUnsignedDecimal | api/services.js:27 | the digits a number renders as are read back as that number, whatever non-digit follows, unless the number is 0 and an `x` follows (a hexadecimal prefix) |
| Text.ParseIntStopsAtNonDigit | api/services.js:27 | `parseInt` stops at the first non-digit (`"42abc"` is 42), and an `x` is such a stop except after a lone `0`, where it selects hexadecimal |
| Text.ParseIntTwelveX | api/services.js:27 | `parseInt("12x")` is 12: an `x` after a non-zero number only ends the digits |
| Rounding.RoundDiv | api/ping.js:134 | `Math.round(p/q)` is the integer nearest to p/q, halves rounded up |
| Rounding.RoundedPercentBounds | api/ping.js:134 | a success rate is at most 100, is 100 when every ping succeeded, and is 0 when none did out of a positive total |
| Rounding.RoundedPercentExamples | api/ping.js:134 | no pings gives 100, 3 out of 4 gives 75, 1 out of 8 gives 13 |
| Ping.Succeeded | api/ping.js:178 | a probe is up exactly when it got a response with status 200 to 399 |
| Ping.ThrownError | api/ping.js:187-188 | a response that is not up becomes an `Error` with message `HTTP <status>: <statusText>`; a thrown error is passed on unchanged |
| Ping.ErrorMessage | api/ping.js:202-213 | `AbortError` gives the timeout message whatever the code; otherwise ENOTFOUND, ECONNREFUSED and ETIMEDOUT get their fixed messages, and any other error keeps its own message |
| Ping.PingServiceWithRetry | api/ping.js:192-223 | the result is the report of the first attempt that is not retried, and every attempt before it failed in a retryable way: below the limit and not aborted |
| Ping.FirstCallAttempts | api/ping.js:195-200 | from the first attempt, a success or an abort is reported after one attempt; a retryable failure is followed by a second attempt whose result is reported; a failure never reports more than 2 attempts |
| Ping.ProbeScenarios | api/ping.js:178-223 | 200 and 301 are up on the first attempt; a connection refused on every attempt reports 2 attempts and 'Connexion refusée'; an abort reports 1 attempt and the timeout message |
| Ping.PingServiceAsWritten | api/ping.js:152-192 | as written, a failed attempt rejects the promise, always with the `startTime` ReferenceError; the promise is fulfilled exactly when the attempt succeeds, with a successful result naming the service |
| Ping.AsWrittenAgreesOnSuccess | api/ping.js:152-223 | the code as written and the intended retry give the same fulfilled result when the first attempt succeeds; when it fails, the code as written rejects while the intended code reports a failure after at most 2 attempts |
| Ping.AsWrittenFailureSkipsRetry | api/ping.js:155-199 | with a refused connection, the code as written marks a fresh service 'error' at its first failure; with the retry that was intended, two attempts are reported and the service is in 'warning' |
| Ping.Settle | api/ping.js:53-57 | with the intended retry logic, every service's promise is fulfilled with a result that names that service |
| Ping.ApplyOutcome | api/ping.js:70-99 | identity fields are kept; status is 'active' exactly for a successful result; success decrements `errorCount` with a floor of 0 and sets `lastPing` and `responseTime`; a reported failure increments the count and gives 'error' above 3, else 'warning'; a rejection increments the count and always gives 'error', with the reason's message or 'Erreur inconnue' |
| Ping.FulfilledKeepsHealthy | api/ping.js:75-86 | fulfilled results keep the count non-negative and keep 'error' reserved for counts above 3 |
| Ping.RejectedBreaksHealthy | api/ping.js:95-96 | a rejection marks a service with count 0 as 'error', against that invariant |
| Ping.ConsecutiveFailures | api/ping.js:82-83 | after k reported failures in a row the count is up by k, and the service is in 'error' exactly when the count exceeds 3 |
| Ping.FourthFailureIsError | api/ping.js:82-83 | from a clean record, 3 failures leave the service in 'warning' and the 4th puts it in 'error' |
| Ping.ProcessResults | api/ping.js:60-100 | each service in the array is updated in place by its own settled result; one result is pushed per service, in order; `successCount` counts the successful results and `totalCount` equals the number of services |
| Ping.LoadedStatsAsWritten | api/ping.js:36-39 | as written, `kv.get(...) \|\| default` leaves a missing stats record null, because the promise is truthy |
| Ping.LoadedStats | api/ping.js:38 | as intended, a missing stats record reads as zero pings, and a stored one is used unchanged |
| Ping.CycleStats | api/ping.js:103-109 | `totalPings` and `successfulPings` grow by the cycle's counts, the last-cycle fields are set, and a null record is an error with status 500 |
| Ping.FirstCycleWithoutStats | api/ping.js:38-109 | with no stats stored, the first cycle fails as written and counts from zero as intended |
| Ping.MakeSummary | api/ping.js:130-135 | `failed = total - successful`, and `successRate` is the rounded percentage, 100 when the total is 0 |
| Ping.RunCycle | api/ping.js:36-145 | an absent or empty list answers with no results and saves nothing; otherwise every service is updated in place; missing stats give a 500 and save nothing; otherwise the reply lists the entries in service order with the new stats and the summary, and exactly those services and stats are saved |
| Ping.CycleReportConsistent | api/ping.js:119-135 | the reply has one entry per service; a rejected service still gets an entry with the internal-error message; `successful` equals the number of 'success' entries and is at most the total; an entry is 'success' exactly when its service is now 'active' |
| Ping.SettledEntriesNameTheirService | api/ping.js:53-57 | in the intended pipeline every entry names the service at its own position |
| Ping.CleanupOldData | api/ping.js:237-261 | exactly the services that are in 'error', were created over 30 days ago and have no ping within 7 days are removed; the number removed is the number of stale services; when none are stale the list is unchanged; the kept list is the filter of the input by "not stale" |
| Ping.CleanupKeepsOrder | api/ping.js:245-256 | the surviving services keep their relative order: cleaning a concatenation keeps the survivors of each part, one part after the other |
| Ping.CleanupKeepsMultiplicity | api/ping.js:245-256 | a service that is not stale is kept as many times as it was stored |
| Services.LoadServices | api/services.js:19-20 | GET answers with the stored list, or `[]` when nothing is stored |
| Services.NewService | api/services.js:23-32 | the new service has the current time as id and creation date, the parsed interval, status 'active', error count 0 and no ping |
| Services.RemainingServices | api/services.js:41-43 | DELETE keeps exactly the services whose id differs from the parsed one, and removes as many as carry that id |
| Services.RemainingKeepsOrder | api/services.js:43 | the kept services stay in their relative order |
| Services.DeleteWithoutId | api/services.js:41-46 | an absent or unparsable id (NaN) deletes nothing |
| Services.DeleteUnknownId | api/services.js:43 | an id that no service carries deletes nothing |
| Services.ServiceStore.Get | api/services.js:18-20 | GET returns the stored list or `[]` and writes nothing |
| Services.ServiceStore.Post | api/services.js:22-38 | POST appends exactly one new service after the existing ones and returns it |
| Services.ServiceStore.Delete | api/services.js:40-46 | DELETE writes back the remaining services and answers success whether or not anything matched |
| Monitors.ValidateMonitorData | api/monitors.js:17-49 | the data is valid exactly when all four checks pass; otherwise the message is that of the first failed check, in the order name, URL, type, interval |
| Monitors.TypeValidCases | api/monitors.js:32-38 | the type is accepted in any capitalisation of http, ping or port, and nothing else is accepted |
| Monitors.IntervalBounds | api/monitors.js:40-46 | intervals 1 and 60 are accepted; 0, 61 and a missing interval are refused |
| Monitors.IntervalOfDecimal | api/monitors.js:40-46 | an interval written as a decimal number passes exactly when that number is from 1 to 60 |
| Monitors.UserMonitors | api/monitors.js:105-115 | `getMonitors` returns exactly the caller's monitors, none invented |
| Monitors.UserMonitorsAppend | api/monitors.js:110-166 | a monitor appended for one user shows up at the end of that user's list and in no one else's |
| Monitors.HasUserUrlOtherUser | api/monitors.js:142-148 | another user's monitor with the same URL never blocks a creation |
| Monitors.FindMonitorIndex | api/monitors.js:208 | `findIndex` is -1 exactly when no monitor has that id and owner; otherwise it is the first such monitor |
| Monitors.FindByBodyId | api/monitors.js:186-208 | a body id that is not a number never matches a stored id |
| Monitors.NewMonitor | api/monitors.js:151-164 | the created monitor has a trimmed name and URL, a lower-cased type, the parsed interval, status 'active', error count 0, and no check, response time or error |
| Monitors.Updated | api/monitors.js:217-225 | an update replaces name, URL, type and interval; it keeps the status unless a non-empty one is given; it sets `updated_at` and preserves every other field |
| Monitors.RemoveAt | api/monitors.js:266-267 | `splice(i, 1)` removes exactly the element at i and keeps the others in order |
| Monitors.RemoveAtOtherUsers | api/monitors.js:258-268 | deleting a caller's monitor leaves every other user's list as it was |
| Monitors.ReplaceOtherUsers | api/monitors.js:208-225 | updating a caller's monitor leaves every other user's list as it was |
| Monitors.MonitorStore.GetMonitors | api/monitors.js:105-115 | GET answers with the caller's monitors and writes nothing |
| Monitors.MonitorStore.CreateMonitor | api/monitors.js:125-174 | invalid data gives 400 with the first message; a URL the caller already has, ignoring case, gives 400; otherwise exactly one monitor is appended and nothing else changes |
| Monitors.MonitorStore.UpdateMonitor | api/monitors.js:184-234 | a missing id gives 400, then invalid data gives 400, then an unknown or foreign id gives 404, and every error leaves the list unchanged; a truthy id, valid data and a found monitor always succeed, and then only the matching index is replaced and the length is kept |
| Monitors.MonitorStore.DeleteMonitor | api/monitors.js:244-275 | a parsed id that is NaN or 0 gives 400 and an unknown or foreign id gives 404, both leaving the list unchanged; otherwise exactly the first matching monitor is removed |
| MonitorStats.ResponseTimes | api/stats.js:66-68 | one time per monitor that has a positive response time, every one of them positive |
| MonitorStats.ResponseTimesOfTimed | api/stats.js:66-68 | the times averaged are, position by position, the `response_time` values of the monitors kept by the filter, in monitor order |
| MonitorStats.Average | api/stats.js:69-71 | the result is the mean of the times rounded to the nearest integer, halves up (`2n·r - n <= 2·sum < 2n·r + n` for n times); it is 0 exactly when nothing qualifies, and never exceeds the largest time averaged |
| MonitorStats.UptimeOf | api/stats.js:72-74 | with no monitors the uptime is the number 100; otherwise it is `up / total · 100` rounded to the nearest tenth (`2t·x - t <= 2000·up < 2t·x + t` for x tenths, t monitors), at most 100.0, 100.0 when all are up and 0.0 when none are |
| MonitorStats.UptimeExamples | api/stats.js:72-74 | one of two monitors up is 50.0, one of three is 33.3 and two of three is 66.7 |
| MonitorStats.DeriveStats | api/stats.js:62-74 | the up, down and paused counts count 'active', 'error' and 'paused'; together with the monitors in any other status (such as 'warning') they add up to the total; the average is the rounded mean of the response times, and is 0 exactly when no monitor has one |
| MonitorStats.RefreshedEntry | api/stats.js:76-94 | the stored counters are carried over, defaulting to 0, 0 and null; only the derived figures are replaced, and they are computed from the caller's monitors |
| MonitorStats.OtherUsersIgnored | api/stats.js:59 | another user's monitor changes nothing in the caller's figures |
| MonitorStats.StatsTable.Refresh | api/stats.js:76-97 | only the caller's entry of the map is written; every other user's entry is unchanged |
| ActivityFeed.SortNewestFirst | api/activity.js:58 | the sort returns the same events (a permutation), newest first |
| ActivityFeed.RecentActivities | api/activity.js:55-59 | at most 50 events, all the caller's and all stored, newest first, and a prefix of the caller's sorted events |
| ActivityFeed.RecentAreMostRecent | api/activity.js:58-59 | no event that was left out is newer than one returned; with at most 50 events all are returned, and with more exactly 50 are |
| Registration.RegistrationCheck | api/auth/register.js:37-57 | registration passes exactly when the trimmed name has at least 2 characters, the email passes the validator and the password has at least 8 characters; otherwise the first failure in that order is reported |
| Registration.RegistrationCheckExamples | api/auth/register.js:38-57 | a padded one-letter name is refused, a 7-character password is refused, and an 8-character one is accepted |
| Registration.NewUser | api/auth/register.js:77-83 | the new user has a trimmed name, a lower-cased email and the hash of the password |
| Registration.AppendKeepsEmailsDistinct | api/auth/register.js:66-86 | appending a user whose email is not taken keeps all emails distinct, ignoring case |
| Registration.UserStore.Register | api/auth/register.js:34-96 | a failed check gives 400 with its message and a taken email gives 400, both leaving the users unchanged; otherwise exactly one user is appended; distinct emails stay distinct |
| Client.FindByUrl | public/app.js:245-247 | the first service whose URL equals the input, ignoring case, or -1 when there is none |
| Client.ServiceInputCheck | public/app.js:220-255 | the input passes exactly when the name has at least 2 characters, the URL is present and parses, the interval is 1 to 60 and no service has that URL, ignoring case; otherwise the first failure in that order is reported, and a duplicate names the existing service |
| Client.SuccessRate | public/app.js:523-525 | the displayed rate is the rounded percentage, 100 when there are no pings |
| Client.SuccessRateMatchesSummary | public/app.js:523-525 | the dashboard's rate is the one in the ping summary and lies between 0 and 100 |
| Client.EstimatedUptime | public/app.js:763-765 | five points are lost per error, the value never drops below 0, and it never exceeds 100 for a non-negative count |
| Client.CalculateUptime | public/app.js:754-767 | null exactly when `created` or `lastPing` is missing; otherwise the estimate with one decimal and a percent sign |
| Client.UptimeDecimalIsZero | public/app.js:765-767 | the decimal of the uptime is always `.0` |
| Client.SplitMinutes | public/app.js:830-838 | under an hour the minutes are shown as they are; under a day as hours and minutes that add back up to the total; beyond that as days and hours, only the leftover minutes being dropped |
| Client.RenderedLeadReadsBack | public/app.js:830-838 | `parseInt` of the shown text reads back its leading figure: the minutes, the hours or the days |
| Client.ElapsedMinutes | public/app.js:827-828 | whole minutes since the start, rounded down |
| Client.SessionStartRoundTrip | public/app.js:821-828 | the start time is stored as text and read back exactly, so the minutes shown are those since the first call |
| Client.StatusClass | public/app.js:730-737 | 'warning' and 'error' map to their own class; every other status maps to '' |
| Client.StatusText | public/app.js:742-749 | each known status has its label, and every other status is 'Statut inconnu' |
| Client.CycleStatusesLabelled | public/app.js:742-749 | every status a ping cycle writes has a label of its own |
| Client.ApiCall | public/app.js:417-449 | every attempt before the one whose result is used failed while online and below 3 retries; wait k lasts 1000·(k+1) ms after the retries already counted; a response is returned exactly when that last attempt was ok, and otherwise its error is thrown because the retries ran out or the browser went offline |
| Client.ApiCallSchedule | public/app.js:442-447 | from the first call there are at most 3 retries (4 attempts), the waits are 1, 2 and 3 seconds, and a server that keeps failing is tried exactly 4 times |
| Client.CountResults | public/app.js:368-380 | `successCount` is the number of 'success' entries, and successes plus errors equal the number of results |
| Client.TallyMatchesCycle | public/app.js:368-380 | the dashboard's tally of a cycle agrees with the server's `successful` and `failed` |
| Client.Dashboard.Log | public/app.js:538-563 | the new line comes first; lines are dropped from the end until at most 100 remain, so the buffer is the first 100 of the new line followed by the old ones |
| Client.Dashboard.ValidateServiceInput | public/app.js:220-255 | the result is true exactly when the check passes; a failure logs its message and nothing else changes |
| Client.Dashboard.RecordPingCycle | public/app.js:362-387 | the counters are taken from the returned stats, the entries are tallied, the service list becomes the reloaded one and the summary line is logged |
| Client.Dashboard.SystemUptime | public/app.js:820-838 | the first call records the start and shows `0m`; later calls show the minutes since the recorded start, parsed back with `parseInt` |

## Left out

- Network probing (`fetch`, `AbortController`, the 25 s and 30 s timers, `sleep`): what each attempt observes is an input, and the waits are returned as data.
- Concurrency: `Promise.all` and `Promise.allSettled` are one settled value per service index; the parallel execution itself is not modelled.
- Persistence: Vercel KV, ioredis, `JSON.parse`/`JSON.stringify`, the lazily created Redis client and store write failures. The stores are in-memory fields, and an absent value reads as the empty list.
- Foreign libraries: `jwt.verify`, `bcrypt.hash`, `validator.isURL`, `validator.isEmail` and `new URL()` are function parameters whose behaviour is not fixed.
- Registration.NewUser: states that the stored hash is `hash(password)`, not that it differs from the plaintext, since `bcrypt` is a parameter.
- Clocks: `Date.now()` and `toISOString()` are integer timestamps in milliseconds.
- Stored dates: the handlers write `created` as an ISO string and `lastPing` as null or an ISO string, so a present date always parses and `None` stands for null or absent. A date string that does not parse is not modelled. A `created` of null, which no handler writes, reads in `cleanupOldData` as the epoch (old), not as NaN; that case is not modelled either.
- Rounding.RoundDiv: `Math.round` and `toFixed(1)` are computed on exact integers; floating-point ties and representation error are not modelled.
- MonitorStats.UptimeOf: `toFixed(1)` produces text, and the model keeps the tenths that the text shows (`Rounding.FixedOne` renders them); the same key holding a number or a string is not captured.
- Text.ToLower: only ASCII letters are mapped; Unicode case mapping is not modelled.
- String lengths: a string is a sequence of code points, while JavaScript's `length` counts UTF-16 units, so the length checks on a trimmed name (api/auth/register.js:38, api/monitors.js:18) and on a password (api/auth/register.js:52) differ for characters outside the Basic Multilingual Plane.
- Text.ParseInt: `parseInt` first converts its argument to a string; the model takes that string, so a numeric interval is passed as its decimal text (`Monitors.MonitorInput`, `Services.NewService`). The conversion of numbers that are not integers, such as `1.5` or `1e21`, is not modelled.
- JSON field types in api/monitors.js: a `name` or `url` that is not a string fails the `typeof` tests of lines 18 and 25 with the same message as an absent one, which is how the model treats it.
- JSON field types in api/auth/register.js: the model takes `name`, `email` and `password` as optional strings. A truthy non-string `name` makes `trim()` throw at line 38; a non-string `email` makes `validator.isEmail` throw at line 45; a numeric `password` passes the length test of line 52 (`undefined < 8` is false) and then makes `bcrypt.hash` throw at line 74. Each of these is answered 500 by lines 98-103 and is not modelled; the model treats such a field as absent and answers 400.
- Monitors.ValidateMonitorData: a non-string truthy `type` makes `toLowerCase` throw; the model treats it as absent.
- HTTP plumbing: CORS headers, method dispatch, `OPTIONS` and 405 replies, and the JWT check that yields the caller's id.
- Client.StatusClass: `statusMap[status]` also finds inherited object keys (such as `constructor`); the model maps every unknown status to the default.
- Client.StatusText: the same lookup in `getStatusText` also finds inherited object keys; the model maps every unknown status to 'Statut inconnu'.
- Client.Dashboard.RecordPingCycle: the per-entry log lines of `manualPingAll`, the fetch behind `loadServices` (the reloaded list is a parameter), its notifications and its failure branch (the reply of a failing `apiCall`) are not modelled; only the tally, the counters and the summary line are. The early return of `manualPingAll` on an empty service list (public/app.js:334-338), before any request is made, is not modelled either.
- Client.Dashboard.SystemUptime: the stored start is an optional string; a stored empty string, which `!startTime` also takes as unset (public/app.js:822), is not distinguished from a missing one, since the model only ever stores a rendered number.
- ActivityFeed.SortNewestFirst: the order of events with equal timestamps is not stated. The engine's sort is stable, and the insertion here is too, but no lemma states it. Activities whose timestamp does not parse (a NaN comparator) are not modelled.
- Browser UI: DOM rendering, notifications, animations, event binding, keyboard shortcuts, `escapeHtml`, `exportConfiguration`, `formatDateTime` (`Intl.DateTimeFormat`; the stamp is a parameter of `Log`), `getPerformanceInfo` and the hot reload.
- api/auth/verify.js is not part of this model; it only wraps `jwt.verify` and one lookup.
- test-kv.js is not part of this model; it only exercises the store.
- Ping.ProcessResults: the source mutates the service objects held by the array and `Promise.allSettled` keeps references to them; the model replaces each array element with its updated record, so aliasing is not captured.

## Findings

| source | as written | input that shows it | evidently intended | confidence | as-written member | corrected member |
|---|---|---|---|---|---|---|
| api/ping.js:155, api/ping.js:192 | `startTime` is a `const` of the `try` block, so the first statement of the `catch` block throws a ReferenceError. Every failed probe then rejects its promise: nothing is retried, no failure message is produced, and the handler's rejection branch marks the service 'error' at once | any probe that fails, for example a refused connection on a service with `errorCount` 0: it ends in 'error' with `lastError` "startTime is not defined" | the retry and message logic of lines 195-223 runs: a second attempt, then a fulfilled failure with the mapped message, and the service goes to 'warning' | high (not executed) | Ping.PingServiceAsWritten, Ping.AsWrittenFailureSkipsRetry | Ping.PingServiceWithRetry, Ping.FirstCallAttempts |
| api/ping.js:38, api/ping.js:104 | `kv.get(STATS_KEY) \|\| {...}` applies `\|\|` to the promise, which is always truthy, so the default never applies; with no stats stored, `stats.totalPings` throws and every non-empty cycle answers 500 without saving | an empty store holding one service: the first cycle fails with "Cannot read properties of null" | a missing stats record reads as zero pings and the first cycle counts from zero | high (not executed) | Ping.LoadedStatsAsWritten, Ping.FirstCycleWithoutStats | Ping.LoadedStats, Ping.FirstCycleWithoutStats |
