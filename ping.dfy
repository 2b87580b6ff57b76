/** The ping cycle of api/ping.js: probing one service with retries, folding the settled
    probes into the services' health fields and into the running counters, and the periodic
    clean-up of dead services. The network is an input: what each attempt observed. */
module Ping {
  import opened Basics
  import opened Text
  import opened Seqs
  import opened Rounding

  /** `PING_CONFIG.maxRetries`: the number of attempts, counting the first one. */
  const MaxRetries := 2

  const TimeoutMessage := "Timeout (service trop lent à répondre)"
  const NotFoundMessage := "Nom de domaine introuvable"
  const RefusedMessage := "Connexion refusée"
  const ConnectTimeoutMessage := "Timeout de connexion"
  const InternalErrorMessage := "Erreur interne lors du ping"
  const UnknownErrorMessage := "Erreur inconnue"

  /** What the engine of the JavaScript runtime reports when the `catch` block of
      `pingServiceWithRetry` reads `startTime`, which is scoped to the `try` block. */
  const StartTimeUndefined := "startTime is not defined"

  /** `Date` arithmetic on the timestamps, in milliseconds. */
  const MaxAge := 30 * 24 * 60 * 60 * 1000
  const RecentWindow := 7 * 24 * 60 * 60 * 1000

  // ------------------------------------------------------------------ records

  /** A `keepalive:services` record. Timestamps are milliseconds since the epoch; `None` is a
      field that is absent or `null`. The handlers write every date as an ISO string, so a
      present date always parses. */
  datatype ServiceRecord = ServiceRecord(
    id: int,
    name: string,
    url: string,
    interval: Option<int>,
    created: Option<int>,
    lastPing: Option<int>,
    status: string,
    errorCount: Option<int>,
    lastError: Option<string>,
    lastErrorTime: Option<int>,
    responseTime: Option<int>)

  /** `service.errorCount || 0`. */
  function ErrorCount(s: ServiceRecord): int
  {
    s.errorCount.GetOr(0)
  }

  /** An `Error` as the `catch` block sees it: its `name`, its `code` if any, its `message`. */
  datatype JsError = JsError(name: string, code: Option<string>, message: string)

  /** What one `fetch` attempt observed: a response with its status line, or a thrown error
      (an `AbortError` when the 25-second timer fired, a system error with a code, ...). */
  datatype Probe = Responded(status: int, statusText: string) | Threw(error: JsError)

  /** One attempt: the observation and the milliseconds elapsed since it started. */
  datatype Attempt = Attempt(probe: Probe, elapsed: int)

  /** The object `pingServiceWithRetry` resolves to; absent fields are `None`. */
  datatype PingResult = PingResult(
    service: string,
    success: bool,
    responseCode: Option<int>,
    responseTime: Option<int>,
    error: Option<string>,
    attempts: Option<nat>)

  /** An element of what `Promise.allSettled` yields: the value of a fulfilled promise, or
      the `message` of the reason a promise was rejected with. */
  datatype Settled = Fulfilled(value: PingResult) | Rejected(reason: Option<string>)

  // ------------------------------------------------------------------ one probe

  /** A response counts as up when `response.ok` (200 to 299) or when it is a redirect
      (300 to 399), redirects not being followed. */
  function Succeeded(p: Probe): (b: bool)
    ensures b <==> p.Responded? && 200 <= p.status < 400
  {
    p.Responded? && ((200 <= p.status <= 299) || (300 <= p.status < 400))
  }

  /** The error the `catch` block receives: the thrown one, or the `Error` raised for a
      response that is not up. */
  function ThrownError(p: Probe): (e: JsError)
    requires !Succeeded(p)
    ensures p.Responded? ==>
      e == JsError("Error", None, "HTTP " + IntToDecimal(p.status) + ": " + p.statusText)
    ensures p.Threw? ==> e == p.error
  {
    match p
    case Responded(status, text) => JsError("Error", None, "HTTP " + IntToDecimal(status) + ": " + text)
    case Threw(e) => e
  }

  /** The message reported for a final failure: a timeout, one of the three system error codes
      with a fixed message, or else the error's own message. */
  function ErrorMessage(e: JsError): (m: string)
    ensures e.name == "AbortError" ==> m == TimeoutMessage
    ensures e.name != "AbortError" ==>
      m == (if e.code == Some("ENOTFOUND") then NotFoundMessage
            else if e.code == Some("ECONNREFUSED") then RefusedMessage
            else if e.code == Some("ETIMEDOUT") then ConnectTimeoutMessage
            else e.message)
  {
    if e.name == "AbortError" then TimeoutMessage
    else if e.code == Some("ENOTFOUND") then NotFoundMessage
    else if e.code == Some("ECONNREFUSED") then RefusedMessage
    else if e.code == Some("ETIMEDOUT") then ConnectTimeoutMessage
    else e.message
  }

  /** After attempt number `k` failed, another attempt is made unless that was the last one
      allowed or the attempt was aborted by the timer. */
  predicate Retryable(a: Attempt, k: int)
  {
    !Succeeded(a.probe) && k < MaxRetries && ThrownError(a.probe).name != "AbortError"
  }

  /** The result reported when attempt number `k` observed `a` and no retry follows. */
  function Report(name: string, a: Attempt, k: nat): PingResult
  {
    if Succeeded(a.probe) then
      PingResult(name, true, Some(a.probe.status), Some(a.elapsed), None, None)
    else
      PingResult(name, false, None, Some(a.elapsed), Some(ErrorMessage(ThrownError(a.probe))), Some(k))
  }

  /** `pingServiceWithRetry(service, attempt)` with the start time of each attempt in scope in
      its `catch` block (see `PingServiceAsWritten` for the code as it stands). `network(k)` is
      what attempt number `k` observes. The result is the report of the first attempt, from
      `attempt` on, that is not retried; every attempt before it failed in a retryable way. */
  function PingServiceWithRetry(name: string, network: nat -> Attempt, attempt: nat): (r: PingResult)
    ensures exists k: nat ::
      && attempt <= k && !Retryable(network(k), k)
      && (forall j: nat :: attempt <= j < k ==> Retryable(network(j), j))
      && r == Report(name, network(k), k)
    decreases MaxRetries - attempt
  {
    if Retryable(network(attempt), attempt) then
      var r := PingServiceWithRetry(name, network, attempt + 1);
      ghost var k: nat :| attempt + 1 <= k && !Retryable(network(k), k)
        && (forall j: nat :: attempt + 1 <= j < k ==> Retryable(network(j), j))
        && r == Report(name, network(k), k);
      assert forall j: nat :: attempt <= j < k ==> Retryable(network(j), j);
      r
    else
      Report(name, network(attempt), attempt)
  }

  /** The call the handler makes, from the first attempt: one attempt when it succeeds or is
      aborted, otherwise a second one whose observation is reported. A failure reports the
      number of attempts made, never more than `MaxRetries`. */
  lemma FirstCallAttempts(name: string, network: nat -> Attempt)
    ensures var r := PingServiceWithRetry(name, network, 1);
      && r.service == name
      && (Succeeded(network(1).probe) ==> r == Report(name, network(1), 1))
      && (!Succeeded(network(1).probe) && ThrownError(network(1).probe).name == "AbortError" ==>
            r == Report(name, network(1), 1) && r.error == Some(TimeoutMessage) && r.attempts == Some(1))
      && (Retryable(network(1), 1) ==> r == Report(name, network(2), 2))
      && (!r.success ==> r.attempts.Some? && 1 <= r.attempts.value <= MaxRetries)
  {
    var r := PingServiceWithRetry(name, network, 1);
    var k: nat :| 1 <= k && !Retryable(network(k), k)
      && (forall j: nat :: 1 <= j < k ==> Retryable(network(j), j))
      && r == Report(name, network(k), k);
  }

  /** Typical probes: 200 and 301 are up on the first attempt; a connection
      refused twice is reported after two attempts; a timeout is not retried. */
  lemma ProbeScenarios(name: string, network: nat -> Attempt)
    ensures network(1).probe == Responded(200, "OK") ==>
      PingServiceWithRetry(name, network, 1) == PingResult(name, true, Some(200), Some(network(1).elapsed), None, None)
    ensures network(1).probe == Responded(301, "Moved Permanently") ==>
      PingServiceWithRetry(name, network, 1).success && PingServiceWithRetry(name, network, 1).responseCode == Some(301)
    ensures (forall k: nat :: network(k).probe.Threw? && network(k).probe.error.name == "Error"
                && network(k).probe.error.code == Some("ECONNREFUSED")) ==>
      var r := PingServiceWithRetry(name, network, 1);
      !r.success && r.attempts == Some(2) && r.error == Some(RefusedMessage)
    ensures network(1).probe == Threw(JsError("AbortError", None, "This operation was aborted")) ==>
      var r := PingServiceWithRetry(name, network, 1);
      !r.success && r.attempts == Some(1) && r.error == Some(TimeoutMessage)
  {
    FirstCallAttempts(name, network);
  }

  /** `pingServiceWithRetry` as written: `startTime` is declared with `const` inside the `try`
      block, so the first statement of the `catch` block throws a `ReferenceError`. Every
      failed attempt therefore rejects the promise at once: nothing is retried and no failure
      message is ever produced. */
  function PingServiceAsWritten(name: string, network: nat -> Attempt, attempt: nat): (r: Settled)
    ensures r.Fulfilled? <==> Succeeded(network(attempt).probe)
    ensures r.Rejected? ==> r.reason == Some(StartTimeUndefined)
    ensures r.Fulfilled? ==> r.value.success && r.value.service == name
  {
    if Succeeded(network(attempt).probe) then Fulfilled(Report(name, network(attempt), attempt))
    else Rejected(Some(StartTimeUndefined))
  }

  /** The code as written and the intended code agree exactly when the first attempt succeeds:
      both fulfil the promise with the same report. When it fails, the code as written rejects
      while the intended code reports a failure no later than the second attempt. */
  lemma AsWrittenAgreesOnSuccess(name: string, network: nat -> Attempt)
    ensures Succeeded(network(1).probe) ==>
      PingServiceAsWritten(name, network, 1) == Fulfilled(PingServiceWithRetry(name, network, 1))
    ensures !Succeeded(network(1).probe) ==>
      PingServiceAsWritten(name, network, 1) == Rejected(Some(StartTimeUndefined))
    ensures !PingServiceWithRetry(name, network, 1).success ==>
      var r := PingServiceWithRetry(name, network, 1);
      r.attempts.Some? && 1 <= r.attempts.value <= MaxRetries
  {
    FirstCallAttempts(name, network);
  }

  /** What happens to a service whose single probe is refused: as written the promise is
      rejected and the service is marked 'error' at its first failure; as intended the
      failure is retried once, reported after two attempts, and the service is in 'warning'. */
  lemma AsWrittenFailureSkipsRetry(s: ServiceRecord, network: nat -> Attempt, now: int)
    requires ErrorCount(s) == 0
    requires forall k: nat :: network(k).probe == Threw(JsError("Error", Some("ECONNREFUSED"), "connect ECONNREFUSED"))
    ensures PingServiceAsWritten(s.name, network, 1) == Rejected(Some(StartTimeUndefined))
    ensures ApplyOutcome(s, PingServiceAsWritten(s.name, network, 1), now).status == "error"
    ensures PingServiceWithRetry(s.name, network, 1).attempts == Some(2)
    ensures ApplyOutcome(s, Fulfilled(PingServiceWithRetry(s.name, network, 1)), now).status == "warning"
  {
    FirstCallAttempts(s.name, network);
  }

  /** The settled promise for one service in the intended pipeline: the retry logic never
      throws, so the promise is always fulfilled. */
  function Settle(s: ServiceRecord, network: nat -> Attempt): (r: Settled)
    ensures r.Fulfilled? && r.value.service == s.name
  {
    FirstCallAttempts(s.name, network);
    Fulfilled(PingServiceWithRetry(s.name, network, 1))
  }

  // ------------------------------------------------------------------ health update

  /** A fulfilled probe that reported success. */
  predicate IsSuccessfulOutcome(o: Settled)
  {
    o.Fulfilled? && o.value.success
  }

  /** The in-place update of one service by its settled probe (the body of the handler's
      loop). Only the health fields change. */
  function ApplyOutcome(s: ServiceRecord, o: Settled, now: int): (r: ServiceRecord)
    ensures r.id == s.id && r.name == s.name && r.url == s.url && r.interval == s.interval
      && r.created == s.created
    ensures r.status == "active" <==> IsSuccessfulOutcome(o)
    ensures IsSuccessfulOutcome(o) ==>
      && r.errorCount == Some(Max(0, ErrorCount(s) - 1))
      && r.lastPing == Some(now) && r.responseTime == o.value.responseTime
      && r.lastError == s.lastError && r.lastErrorTime == s.lastErrorTime
    ensures !IsSuccessfulOutcome(o) ==>
      && r.errorCount == Some(ErrorCount(s) + 1)
      && r.lastPing == s.lastPing && r.responseTime == s.responseTime
      && r.lastErrorTime == Some(now)
    ensures o.Fulfilled? && !o.value.success ==>
      r.status == (if ErrorCount(s) + 1 > 3 then "error" else "warning") && r.lastError == o.value.error
    ensures o.Rejected? ==>
      r.status == "error" && r.lastError == Some(if o.reason.None? || o.reason.value == "" then UnknownErrorMessage else o.reason.value)
  {
    match o
    case Fulfilled(p) =>
      if p.success then
        s.(lastPing := Some(now), status := "active",
           errorCount := Some(Max(0, ErrorCount(s) - 1)), responseTime := p.responseTime)
      else
        var count := ErrorCount(s) + 1;
        s.(errorCount := Some(count), status := if count > 3 then "error" else "warning",
           lastError := p.error, lastErrorTime := Some(now))
    case Rejected(reason) =>
      var message := if reason.None? || reason.value == "" then UnknownErrorMessage else reason.value;
      s.(errorCount := Some(ErrorCount(s) + 1), status := "error",
         lastError := Some(message), lastErrorTime := Some(now))
  }

  /** The health invariant the thresholds of lines 82-83 keep: the count is never negative and
      'error' means more than three failures in the count. */
  predicate Healthy(s: ServiceRecord)
  {
    ErrorCount(s) >= 0 && (s.status == "error" ==> ErrorCount(s) > 3)
  }

  /** Fulfilled probes keep the invariant. */
  lemma FulfilledKeepsHealthy(s: ServiceRecord, p: PingResult, now: int)
    requires Healthy(s)
    ensures Healthy(ApplyOutcome(s, Fulfilled(p), now))
  {
  }

  /** A rejected probe breaks it: a fresh service is marked 'error' with a count of one. */
  lemma RejectedBreaksHealthy(s: ServiceRecord, reason: Option<string>, now: int)
    requires ErrorCount(s) == 0
    ensures !Healthy(ApplyOutcome(s, Rejected(reason), now))
  {
  }

  /** `k` failing cycles in a row. */
  function FailCycles(s: ServiceRecord, p: PingResult, k: nat, now: int): ServiceRecord
  {
    if k == 0 then s else ApplyOutcome(FailCycles(s, p, k - 1, now), Fulfilled(p), now)
  }

  /** After `k` consecutive reported failures the count went up by `k`, and the service is in
      'error' exactly when that count exceeds three. */
  lemma {:induction false} ConsecutiveFailures(s: ServiceRecord, p: PingResult, k: nat, now: int)
    requires !p.success && k >= 1
    ensures ErrorCount(FailCycles(s, p, k, now)) == ErrorCount(s) + k
    ensures FailCycles(s, p, k, now).status == (if ErrorCount(s) + k > 3 then "error" else "warning")
  {
    if k > 1 {
      ConsecutiveFailures(s, p, k - 1, now);
    }
  }

  /** From a clean record, three failures leave the service in 'warning' and the fourth puts
      it in 'error'. */
  lemma FourthFailureIsError(s: ServiceRecord, p: PingResult, now: int)
    requires ErrorCount(s) == 0 && !p.success
    ensures FailCycles(s, p, 3, now).status == "warning"
    ensures FailCycles(s, p, 4, now).status == "error"
  {
    ConsecutiveFailures(s, p, 3, now);
    ConsecutiveFailures(s, p, 4, now);
  }

  // ------------------------------------------------------------------ the cycle

  /** One entry of the `results` array of the handler's reply. */
  datatype ResultEntry = ResultEntry(
    service: string,
    status: string,
    responseCode: Option<int>,
    responseTime: Option<int>,
    error: Option<string>)

  /** The `summary` of the reply. */
  datatype Summary = Summary(total: nat, successful: nat, failed: int, successRate: nat)

  /** The `keepalive:stats` record. A record that was never fully written lacks the last three. */
  datatype PingStats = PingStats(
    totalPings: int,
    successfulPings: int,
    lastPingTime: Option<int>,
    lastPingCount: Option<nat>,
    lastSuccessCount: Option<nat>)

  /** What the handler answers. */
  datatype CycleResponse =
    | NoServices(storedStats: Option<PingStats>)
    | Completed(results: seq<ResultEntry>, stats: PingStats, summary: Summary)
    | InternalError(details: string)

  /** What the handler writes back to the store. */
  datatype Saved = Saved(services: seq<ServiceRecord>, stats: PingStats)

  /** The object pushed to `pingResults` for one service. */
  function ResultOf(s: ServiceRecord, o: Settled): PingResult
  {
    match o
    case Fulfilled(p) => p
    case Rejected(_) => PingResult(s.name, false, None, None, Some(InternalErrorMessage), None)
  }

  /** `pingResults.map(...)`: the shape of one reply entry. */
  function Entry(p: PingResult): ResultEntry
  {
    ResultEntry(p.service, if p.success then "success" else "error", p.responseCode, p.responseTime, p.error)
  }

  predicate IsSuccessEntry(e: ResultEntry) { e.status == "success" }

  function UpdatedServices(ss: seq<ServiceRecord>, os: seq<Settled>, now: int): (r: seq<ServiceRecord>)
    requires |os| == |ss|
  {
    seq(|ss|, i requires 0 <= i < |ss| => ApplyOutcome(ss[i], os[i], now))
  }

  function CycleResults(ss: seq<ServiceRecord>, os: seq<Settled>): (r: seq<PingResult>)
    requires |os| == |ss|
  {
    seq(|ss|, i requires 0 <= i < |ss| => ResultOf(ss[i], os[i]))
  }

  /** Extending both inputs by one element extends the updated list by that element's update. */
  lemma UpdatedServicesSnoc(ss: seq<ServiceRecord>, os: seq<Settled>, now: int, k: nat)
    requires |os| == |ss| && k < |ss|
    ensures UpdatedServices(ss[..k + 1], os[..k + 1], now)
      == UpdatedServices(ss[..k], os[..k], now) + [ApplyOutcome(ss[k], os[k], now)]
  {
  }

  lemma CycleResultsSnoc(ss: seq<ServiceRecord>, os: seq<Settled>, k: nat)
    requires |os| == |ss| && k < |ss|
    ensures CycleResults(ss[..k + 1], os[..k + 1]) == CycleResults(ss[..k], os[..k]) + [ResultOf(ss[k], os[k])]
  {
  }

  function Entries(ps: seq<PingResult>): (r: seq<ResultEntry>)
  {
    seq(|ps|, i requires 0 <= i < |ps| => Entry(ps[i]))
  }

  /** The handler's loop (lines 64-100): each service is updated in place by its own settled
      probe, one result is pushed per service, and the two counters are advanced. */
  method ProcessResults(services: array<ServiceRecord>, outcomes: seq<Settled>, now: int)
    returns (pingResults: seq<PingResult>, successCount: nat, totalCount: nat)
    requires |outcomes| == services.Length
    modifies services
    ensures services[..] == UpdatedServices(old(services[..]), outcomes, now)
    ensures pingResults == CycleResults(old(services[..]), outcomes)
    ensures successCount == Count(outcomes, IsSuccessfulOutcome)
    ensures totalCount == services.Length
  {
    ghost var before := services[..];
    pingResults := [];
    successCount := 0;
    totalCount := 0;
    var i := 0;
    while i < services.Length
      invariant 0 <= i <= services.Length
      invariant totalCount == i
      invariant services[..i] == UpdatedServices(before[..i], outcomes[..i], now)
      invariant services[i..] == before[i..]
      invariant pingResults == CycleResults(before[..i], outcomes[..i])
      invariant successCount == Count(outcomes[..i], IsSuccessfulOutcome)
    {
      var service := services[i];
      var result := outcomes[i];
      assert service == before[i];
      totalCount := totalCount + 1;
      pingResults := pingResults + [ResultOf(service, result)];
      if IsSuccessfulOutcome(result) {
        successCount := successCount + 1;
      }
      ghost var done := services[..i];
      services[i] := ApplyOutcome(service, result, now);
      assert services[..i + 1] == done + [ApplyOutcome(service, result, now)];
      UpdatedServicesSnoc(before, outcomes, now, i);
      CycleResultsSnoc(before, outcomes, i);
      assert outcomes[..i + 1] == outcomes[..i] + [result];
      CountSnoc(outcomes[..i], result, IsSuccessfulOutcome);
      assert services[i + 1..] == before[i + 1..] by {
        assert services[i + 1..] == old(services[..])[i + 1..];
      }
      i := i + 1;
    }
    assert services[..] == services[..i];
    assert before == before[..i];
    assert outcomes == outcomes[..i];
  }

  /** `stats` as the handler loads it: `kv.get(STATS_KEY) || {...}` applies `||` to the
      promise, which is always truthy, so the default never applies and a missing record is
      `null`. */
  function LoadedStatsAsWritten(stored: Option<PingStats>): (r: Option<PingStats>)
    ensures r == stored
  {
    stored
  }

  /** `stats` as evidently intended: a missing record reads as zero pings. */
  function LoadedStats(stored: Option<PingStats>): (r: Option<PingStats>)
    ensures r.Some?
    ensures stored.None? ==> r.value.totalPings == 0 && r.value.successfulPings == 0
    ensures stored.Some? ==> r == stored
  {
    if stored.Some? then stored else Some(PingStats(0, 0, None, None, None))
  }

  /** Lines 103-109: the running counters advanced by one cycle; reading `stats.totalPings` on
      a `null` record throws, which the handler turns into a 500 reply. */
  function CycleStats(stats: Option<PingStats>, totalCount: nat, successCount: nat, now: int): (r: Reply<PingStats>)
    ensures stats.None? <==> r.Err?
    ensures r.Err? ==> r.status == 500
    ensures r.Ok? ==>
      && r.value.totalPings == stats.value.totalPings + totalCount
      && r.value.successfulPings == stats.value.successfulPings + successCount
      && r.value.lastPingTime == Some(now)
      && r.value.lastPingCount == Some(totalCount)
      && r.value.lastSuccessCount == Some(successCount)
  {
    match stats
    case None => Err(500, "Cannot read properties of null (reading 'totalPings')")
    case Some(prior) =>
      Ok(PingStats(prior.totalPings + totalCount, prior.successfulPings + successCount,
                        Some(now), Some(totalCount), Some(successCount)))
  }

  /** With no stats record yet, a non-empty cycle fails as written and counts its pings from
      zero as intended. */
  lemma FirstCycleWithoutStats(totalCount: nat, successCount: nat, now: int)
    ensures CycleStats(LoadedStatsAsWritten(None), totalCount, successCount, now).Err?
    ensures CycleStats(LoadedStats(None), totalCount, successCount, now)
      == Ok(PingStats(totalCount, successCount, Some(now), Some(totalCount), Some(successCount)))
  {
  }

  /** The reply's `summary`. */
  function MakeSummary(total: nat, successful: nat): (r: Summary)
    ensures r.total == total && r.successful == successful
    ensures r.failed == total - successful
    ensures r.successRate == RoundedPercent(successful, total)
  {
    Summary(total, successful, total - successful, if total > 0 then RoundDiv(100 * successful, total) else 100)
  }

  /** The handler (lines 41-136) on the loaded services and stats. `outcomes` are the settled
      probe promises, one per service. */
  method RunCycle(services: array?<ServiceRecord>, stats: Option<PingStats>, outcomes: seq<Settled>, now: int)
    returns (response: CycleResponse, saved: Option<Saved>)
    requires services != null ==> |outcomes| == services.Length
    modifies services
    ensures services == null || services.Length == 0 ==>
      response == NoServices(stats) && saved.None?
    ensures services != null && services.Length > 0 ==>
      services[..] == UpdatedServices(old(services[..]), outcomes, now)
    ensures services != null && services.Length > 0 ==>
      var countsOk := CycleStats(stats, services.Length, Count(outcomes, IsSuccessfulOutcome), now);
      && (countsOk.Err? ==> response == InternalError(countsOk.error) && saved.None?)
      && (countsOk.Ok? ==>
           && response == Completed(Entries(CycleResults(old(services[..]), outcomes)), countsOk.value,
                                    MakeSummary(services.Length, Count(outcomes, IsSuccessfulOutcome)))
           && saved == Some(Saved(services[..], countsOk.value)))
  {
    if services == null || services.Length == 0 {
      return NoServices(stats), None;
    }
    var pingResults, successCount, totalCount := ProcessResults(services, outcomes, now);
    var updated := CycleStats(stats, totalCount, successCount, now);
    if updated.Err? {
      return InternalError(updated.error), None;
    }
    response := Completed(Entries(pingResults), updated.value, MakeSummary(totalCount, successCount));
    saved := Some(Saved(services[..], updated.value));
  }

  /** The reply lists one entry per service, in service order, and its summary agrees with
      the entries: `successful` is the number of entries with status 'success', at most the
      total, and an entry is 'success' exactly when its service is now 'active'. */
  lemma CycleReportConsistent(ss: seq<ServiceRecord>, os: seq<Settled>, now: int)
    requires |os| == |ss|
    ensures var es := Entries(CycleResults(ss, os));
      && |es| == |ss|
      && (forall i :: 0 <= i < |ss| && os[i].Rejected? ==> es[i].service == ss[i].name && es[i].error == Some(InternalErrorMessage))
      && Count(os, IsSuccessfulOutcome) == Count(es, IsSuccessEntry)
      && Count(os, IsSuccessfulOutcome) <= |ss|
      && (forall i :: 0 <= i < |ss| ==> (IsSuccessEntry(es[i]) <==> UpdatedServices(ss, os, now)[i].status == "active"))
  {
    var es := Entries(CycleResults(ss, os));
    CountCorresponding(os, IsSuccessfulOutcome, es, IsSuccessEntry);
  }

  /** In the intended pipeline every entry names its own service. */
  lemma SettledEntriesNameTheirService(ss: seq<ServiceRecord>, networks: seq<nat -> Attempt>)
    requires |networks| == |ss|
    ensures var os := seq(|ss|, i requires 0 <= i < |ss| => Settle(ss[i], networks[i]));
      forall i :: 0 <= i < |ss| ==> Entries(CycleResults(ss, os))[i].service == ss[i].name
  {
  }

  // ------------------------------------------------------------------ clean-up

  /** A service `cleanupOldData` removes: created more than 30 days ago, not pinged within the
      last 7 days, and in 'error'. An absent `created` reads as NaN, which is never old; a
      `lastPing` that is null or absent is no recent activity. */
  predicate IsStale(s: ServiceRecord, now: int)
  {
    && s.created.Some? && now - s.created.value > MaxAge
    && !(s.lastPing.Some? && now - s.lastPing.value < RecentWindow)
    && s.status == "error"
  }

  /** `cleanupOldData`: the services kept, in their order, and the number removed. The store
      is written only when something was removed, which leaves the same list. */
  function CleanupOldData(ss: seq<ServiceRecord>, now: int): (r: (seq<ServiceRecord>, nat))
    ensures r.0 == Filter(ss, s => !IsStale(s, now))
    ensures forall s :: s in r.0 <==> s in ss && !IsStale(s, now)
    ensures r.1 == |ss| - |r.0|
    ensures r.1 == Count(ss, s => IsStale(s, now))
    ensures r.1 == 0 ==> r.0 == ss
  {
    var kept := Filter(ss, s => !IsStale(s, now));
    CountComplement(ss, s => IsStale(s, now), s => !IsStale(s, now));
    if |kept| == |ss| then
      CleanupNothingStale(ss, now);
      FilterAllKept(ss, s => !IsStale(s, now));
      (ss, 0)
    else
      (kept, |ss| - |kept|)
  }

  lemma CleanupNothingStale(ss: seq<ServiceRecord>, now: int)
    requires Count(ss, s => !IsStale(s, now)) == |ss|
    ensures forall i :: 0 <= i < |ss| ==> !IsStale(ss[i], now)
  {
    CountComplement(ss, s => IsStale(s, now), s => !IsStale(s, now));
    assert Filter(ss, s => IsStale(s, now)) == [];
    forall i | 0 <= i < |ss| ensures !IsStale(ss[i], now) {
      assert ss[i] in ss;
    }
  }

  /** The clean-up keeps the surviving services in their order: cleaning a concatenation
      keeps what cleaning each part keeps, one part after the other. */
  lemma CleanupKeepsOrder(a: seq<ServiceRecord>, b: seq<ServiceRecord>, now: int)
    ensures CleanupOldData(a + b, now).0 == CleanupOldData(a, now).0 + CleanupOldData(b, now).0
  {
    FilterAppend(a, b, s => !IsStale(s, now));
  }

  /** A surviving service is kept once for each time it was stored. */
  lemma CleanupKeepsMultiplicity(ss: seq<ServiceRecord>, now: int, s: ServiceRecord)
    requires !IsStale(s, now)
    ensures multiset(CleanupOldData(ss, now).0)[s] == multiset(ss)[s]
  {
    FilterKeepsMultiplicity(ss, x => !IsStale(x, now), s);
  }
}
