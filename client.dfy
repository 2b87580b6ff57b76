/** The dashboard's logic in public/app.js, without its DOM: input validation, the displayed
    rates and durations, the retrying API call, the bounded log and the ping tally. */
module Client {
  import opened Basics
  import opened Seqs
  import opened Text
  import opened Rounding
  import opened Ping

  /** `this.config`. */
  const MaxRetries := 3
  const RetryDelay := 1000
  const MaxLogEntries := 100

  const NameTooShort := "❌ Le nom du service doit contenir au moins 2 caractères"
  const UrlRequired := "❌ L'URL du service est requise"
  const UrlInvalid := "❌ L'URL fournie n'est pas valide"
  const IntervalOutOfRange := "❌ L'intervalle doit être entre 1 et 60 minutes"
  const DuplicatePrefix := "❌ Un service avec cette URL existe déjà: "

  // ------------------------------------------------------------------ validation

  /** The index of the first service whose URL equals `url` ignoring case, or -1. */
  function FindByUrl(ss: seq<ServiceRecord>, url: string): (i: int)
    ensures -1 <= i < |ss|
    ensures i == -1 <==> forall j :: 0 <= j < |ss| ==> !SameIgnoringCase(ss[j].url, url)
    ensures i >= 0 ==> SameIgnoringCase(ss[i].url, url)
    ensures i >= 0 ==> forall j :: 0 <= j < i ==> !SameIgnoringCase(ss[j].url, url)
  {
    if ss == [] then -1
    else if SameIgnoringCase(ss[0].url, url) then 0
    else
      var k := FindByUrl(ss[1..], url);
      if k == -1 then -1 else k + 1
  }

  /** `validateServiceInput(name, url, interval)` with the name and URL already trimmed and the
      interval already parsed: the first failed check in the order name, URL present, URL
      parses (`parses` stands for `new URL(url)` not throwing), interval, no other service with
      that URL; the duplicate message names the first such service. */
  function ServiceInputCheck(services: seq<ServiceRecord>, name: Option<string>, url: Option<string>,
                             interval: Option<int>, parses: string -> bool): (c: Check)
    ensures !(name.Some? && |name.value| >= 2) ==> c == Fail(NameTooShort)
    ensures name.Some? && |name.value| >= 2 ==>
      && (!(url.Some? && url.value != "") ==> c == Fail(UrlRequired))
      && (url.Some? && url.value != "" && !parses(url.value) ==> c == Fail(UrlInvalid))
    ensures name.Some? && |name.value| >= 2 && url.Some? && url.value != "" && parses(url.value) ==>
      && (!(interval.Some? && 1 <= interval.value <= 60) ==> c == Fail(IntervalOutOfRange))
      && (interval.Some? && 1 <= interval.value <= 60 && FindByUrl(services, url.value) >= 0 ==>
            c == Fail(DuplicatePrefix + services[FindByUrl(services, url.value)].name))
    ensures c == Pass <==>
      && name.Some? && |name.value| >= 2
      && url.Some? && url.value != "" && parses(url.value)
      && interval.Some? && 1 <= interval.value <= 60
      && forall j :: 0 <= j < |services| ==> !SameIgnoringCase(services[j].url, url.value)
  {
    if name.None? || |name.value| < 2 then Fail(NameTooShort)
    else if url.None? || url.value == "" then Fail(UrlRequired)
    else if !parses(url.value) then Fail(UrlInvalid)
    else if interval.None? || interval.value < 1 || interval.value > 60 then Fail(IntervalOutOfRange)
    else
      var i := FindByUrl(services, url.value);
      if i >= 0 then Fail(DuplicatePrefix + services[i].name) else Pass
  }

  // ------------------------------------------------------------------ rates and durations

  /** The success rate `updateStats` shows: 100 with no pings. */
  function SuccessRate(successful: int, total: int): (r: int)
    ensures total > 0 ==> 2 * total * r - total <= 200 * successful < 2 * total * r + total
    ensures total <= 0 ==> r == 100
  {
    if total > 0 then RoundDiv(100 * successful, total) else 100
  }

  /** On counts the dashboard shows the same rate as the ping summary. */
  lemma SuccessRateMatchesSummary(successful: nat, total: nat)
    requires successful <= total
    ensures SuccessRate(successful, total) == MakeSummary(total, successful).successRate
    ensures 0 <= SuccessRate(successful, total) <= 100
  {
    RoundedPercentBounds(successful, total);
  }

  /** `Math.max(0, 100 - errorCount * 5)`: five points per recorded error, floored at zero. */
  function EstimatedUptime(errorCount: int): (u: int)
    ensures u >= 0
    ensures errorCount >= 0 ==> u <= 100
    ensures errorCount >= 20 ==> u == 0
    ensures errorCount < 20 ==> u == 100 - 5 * errorCount
  {
    Max(0, 100 - errorCount * 5)
  }

  /** `calculateUptime(service)`: nothing when `created` or `lastPing` is null or absent,
      otherwise the estimate written with one decimal and a percent sign. */
  function CalculateUptime(s: ServiceRecord): (r: Option<string>)
    ensures r.None? <==> s.created.None? || s.lastPing.None?
    ensures r.Some? ==> r.value == FixedOne(10 * EstimatedUptime(ErrorCount(s))) + "%"
  {
    if s.created.None? || s.lastPing.None? then None
    else Some(FixedOne(10 * EstimatedUptime(ErrorCount(s))) + "%")
  }

  /** The estimate is a whole number, so its decimal is always 0. */
  lemma UptimeDecimalIsZero(s: ServiceRecord)
    requires s.created.Some? && s.lastPing.Some?
    ensures CalculateUptime(s) == Some(NatToDecimal(EstimatedUptime(ErrorCount(s))) + ".0%")
  {
    var u := EstimatedUptime(ErrorCount(s));
    assert (10 * u) / 10 == u && (10 * u) % 10 == 0;
    assert [DigitChar(0)] == "0";
    assert FixedOne(10 * u) == NatToDecimal(u) + "." + "0";
    assert NatToDecimal(u) + "." + "0" + "%" == NatToDecimal(u) + ".0%";
  }

  /** The parts `calculateSystemUptime` displays for a number of minutes (`None` is NaN). */
  datatype Duration = Minutes(minutes: int) | HoursMinutes(h: nat, m: nat) | DaysHours(d: nat, h: nat) | NotANumber

  /** Minutes under an hour as they are, under a day as hours and minutes, beyond that as days
      and hours, the leftover minutes being dropped. */
  function SplitMinutes(total: Option<int>): (p: Duration)
    ensures total.None? <==> p.NotANumber?
    ensures p.Minutes? ==> total.value < 60 && p.minutes == total.value
    ensures p.HoursMinutes? ==> 60 <= total.value < 1440 && p.h * 60 + p.m == total.value && p.m < 60 && 1 <= p.h < 24
    ensures p.DaysHours? ==>
      && total.value >= 1440 && p.d >= 1 && p.h < 24
      && p.d * 1440 + p.h * 60 <= total.value < p.d * 1440 + p.h * 60 + 60
  {
    match total
    case None => NotANumber
    case Some(m) =>
      if m < 60 then Minutes(m)
      else if m < 1440 then HoursMinutes(m / 60, m % 60)
      else DaysHours(m / 1440, (m % 1440) / 60)
  }

  /** The template strings: `5m`, `2h 5m`, `3j 4h`; NaN renders as `NaNj NaNh`. */
  function RenderDuration(p: Duration): (r: string)
  {
    match p
    case Minutes(m) => IntToDecimal(m) + "m"
    case HoursMinutes(h, m) => NatToDecimal(h) + "h " + NatToDecimal(m) + "m"
    case DaysHours(d, h) => NatToDecimal(d) + "j " + NatToDecimal(h) + "h"
    case NotANumber => "NaNj NaNh"
  }

  /** The first figure of the text: the minutes, the hours or the days. */
  function Lead(p: Duration): int
  {
    match p
    case Minutes(m) => m
    case HoursMinutes(h, _) => h
    case DaysHours(d, _) => d
    case NotANumber => 0
  }

  /** `parseInt` of the text reads back its leading figure. */
  lemma RenderedLeadReadsBack(total: int)
    ensures var p := SplitMinutes(Some(total));
      ParseInt(RenderDuration(p)) == Some(Lead(p))
  {
    var p := SplitMinutes(Some(total));
    match p
    case Minutes(m) => MinutesReadBack(m);
    case HoursMinutes(h, m) => PairReadsBack(h, "h ", m, "m");
    case DaysHours(d, h) => PairReadsBack(d, "j ", h, "h");
  }

  lemma MinutesReadBack(m: int)
    ensures ParseInt(RenderDuration(Minutes(m))) == Some(m)
  {
    if m >= 0 {
      ParseIntStopsAtNonDigit(m, "m");
    } else {
      var u := NatToDecimal(-m) + "m";
      ParseUnsignedDecimal(-m, "m");
      ParseIntMinus(u, -m);
      assert RenderDuration(Minutes(m)) == "-" + u;
    }
  }

  lemma PairReadsBack(a: nat, unitA: string, b: nat, unitB: string)
    requires unitA != [] && !IsDigit(unitA[0], 10) && unitA[0] != 'x' && unitA[0] != 'X'
    ensures ParseInt(NatToDecimal(a) + unitA + NatToDecimal(b) + unitB) == Some(a)
  {
    var head, digitsB := NatToDecimal(a), NatToDecimal(b);
    var rest := unitA + (digitsB + unitB);
    assert rest[0] == unitA[0];
    ParseIntStopsAtNonDigit(a, rest);
    Regroup(head, unitA, digitsB, unitB);
  }

  lemma Regroup(w: string, x: string, y: string, z: string)
    ensures w + x + y + z == w + (x + (y + z))
  {
  }

  // ------------------------------------------------------------------ statuses

  /** `getStatusClass`: the CSS class of a status, '' for 'active' and for anything unknown. */
  function StatusClass(status: string): (c: string)
    ensures c == "warning" <==> status == "warning"
    ensures c == "error" <==> status == "error"
    ensures status != "warning" && status != "error" ==> c == ""
  {
    if status == "warning" then "warning" else if status == "error" then "error" else ""
  }

  /** `getStatusText`: the label of a status, 'Statut inconnu' for anything unknown. */
  function StatusText(status: string): (t: string)
    ensures status == "active" ==> t == "Service actif"
    ensures status == "warning" ==> t == "Service avec des erreurs récentes"
    ensures status == "error" ==> t == "Service en erreur"
    ensures status != "active" && status != "warning" && status != "error" ==> t == "Statut inconnu"
  {
    if status == "active" then "Service actif"
    else if status == "warning" then "Service avec des erreurs récentes"
    else if status == "error" then "Service en erreur"
    else "Statut inconnu"
  }

  /** Every status a ping cycle writes has its own label. */
  lemma CycleStatusesLabelled(s: ServiceRecord, o: Settled, now: int)
    ensures StatusText(ApplyOutcome(s, o, now).status) != "Statut inconnu"
  {
  }

  // ------------------------------------------------------------------ the API call

  /** What one `fetch` of `apiCall` observed. */
  datatype ApiAttempt = Answered(status: int, statusText: string) | NetworkFailure(message: string)

  /** The response returned, or the message of the error thrown; `waits` are the `sleep`
      durations between attempts, in order. */
  datatype ApiOutcome = Returned(status: int) | Thrown(message: string)
  datatype ApiResult = ApiResult(outcome: ApiOutcome, waits: seq<int>)

  predicate AttemptOk(a: ApiAttempt) { a.Answered? && 200 <= a.status <= 299 }

  function AttemptError(a: ApiAttempt): string
  {
    match a
    case Answered(s, text) => "HTTP " + IntToDecimal(s) + ": " + text
    case NetworkFailure(m) => m
  }

  /** `apiCall(url, options, retryCount)`: attempt number `k` observes `responses(k)`, and
      `online(k)` is `navigator.onLine` when it fails. A failure is retried while fewer than
      three retries were made and the browser is online, after waiting one second per retry
      already counted plus one. The result comes from the first attempt that is not retried. */
  function ApiCall(responses: nat -> ApiAttempt, online: nat -> bool, retryCount: nat): (r: ApiResult)
    ensures forall k :: 0 <= k < |r.waits| ==> r.waits[k] == RetryDelay * (retryCount + k + 1)
    ensures forall k: nat :: retryCount <= k < retryCount + |r.waits| ==>
      !AttemptOk(responses(k)) && online(k) && k < MaxRetries
    ensures var last := retryCount + |r.waits|;
      && (r.outcome.Returned? <==> AttemptOk(responses(last)))
      && (r.outcome.Returned? ==> r.outcome.status == responses(last).status)
      && (r.outcome.Thrown? ==> (last >= MaxRetries || !online(last)) && r.outcome.message == AttemptError(responses(last)))
    decreases MaxRetries - retryCount
  {
    var a := responses(retryCount);
    if AttemptOk(a) then ApiResult(Returned(a.status), [])
    else if retryCount < MaxRetries && online(retryCount) then
      var rest := ApiCall(responses, online, retryCount + 1);
      var waits := [RetryDelay * (retryCount + 1)] + rest.waits;
      WaitsExtend(responses, online, retryCount, rest.waits, waits);
      ApiResult(rest.outcome, waits)
    else ApiResult(Thrown(AttemptError(a)), [])
  }

  /** The waits and failed attempts of a retry, prefixed by the current attempt's. */
  lemma WaitsExtend(responses: nat -> ApiAttempt, online: nat -> bool, retryCount: nat,
                    restWaits: seq<int>, waits: seq<int>)
    requires !AttemptOk(responses(retryCount)) && online(retryCount) && retryCount < MaxRetries
    requires waits == [RetryDelay * (retryCount + 1)] + restWaits
    requires forall k :: 0 <= k < |restWaits| ==> restWaits[k] == RetryDelay * (retryCount + 1 + k + 1)
    requires forall k: nat :: retryCount + 1 <= k < retryCount + 1 + |restWaits| ==>
      !AttemptOk(responses(k)) && online(k) && k < MaxRetries
    ensures forall k :: 0 <= k < |waits| ==> waits[k] == RetryDelay * (retryCount + k + 1)
    ensures forall k: nat :: retryCount <= k < retryCount + |waits| ==>
      !AttemptOk(responses(k)) && online(k) && k < MaxRetries
  {
    forall k | 0 <= k < |waits| ensures waits[k] == RetryDelay * (retryCount + k + 1) {
      if k > 0 {
        assert waits[k] == restWaits[k - 1];
      }
    }
    forall k: nat | retryCount <= k < retryCount + |waits|
      ensures !AttemptOk(responses(k)) && online(k) && k < MaxRetries
    {
      if k > retryCount {
        assert retryCount + 1 <= k < retryCount + 1 + |restWaits|;
      }
    }
  }

  /** From the first call: at most four attempts, the waits 1, 2 and 3 seconds, and a server
      that keeps failing while the browser is online is tried exactly four times. */
  lemma ApiCallSchedule(responses: nat -> ApiAttempt, online: nat -> bool)
    ensures |ApiCall(responses, online, 0).waits| <= MaxRetries
    ensures ApiCall(responses, online, 0).waits <= [1000, 2000, 3000]
    ensures (forall k: nat :: !AttemptOk(responses(k)) && online(k)) ==>
      ApiCall(responses, online, 0) == ApiResult(Thrown(AttemptError(responses(3))), [1000, 2000, 3000])
  {
    var w := ApiCall(responses, online, 0).waits;
    assert forall k :: 0 <= k < |w| ==> w[k] == [1000, 2000, 3000][k];
  }

  // ------------------------------------------------------------------ the dashboard state

  /** One line of the log panel. */
  function LogLine(stamp: string, message: string): string
  {
    "[" + stamp + "] " + message
  }

  /** The tally `manualPingAll` logs: `(successCount, errorCount)` over the returned entries. */
  method CountResults(results: seq<ResultEntry>) returns (successCount: nat, errorCount: nat)
    ensures successCount == Count(results, IsSuccessEntry)
    ensures successCount + errorCount == |results|
  {
    successCount, errorCount := 0, 0;
    var i := 0;
    while i < |results|
      invariant 0 <= i <= |results|
      invariant successCount == Count(results[..i], IsSuccessEntry)
      invariant successCount + errorCount == i
    {
      CountSnoc(results[..i], results[i], IsSuccessEntry);
      assert results[..i + 1] == results[..i] + [results[i]];
      if results[i].status == "success" {
        successCount := successCount + 1;
      } else {
        errorCount := errorCount + 1;
      }
      i := i + 1;
    }
    assert results[..i] == results;
  }

  /** The summary line `manualPingAll` logs after a cycle. */
  function PingSummary(successCount: nat, errorCount: nat): string
  {
    "🎯 Ping terminé - " + NatToDecimal(successCount) + " succès, " + NatToDecimal(errorCount) + " erreurs"
  }

  /** The cycle's tally agrees with its summary: as many successes as the server counted. */
  lemma TallyMatchesCycle(ss: seq<ServiceRecord>, os: seq<Settled>)
    requires |os| == |ss|
    ensures var es := Entries(CycleResults(ss, os));
      Count(es, IsSuccessEntry) == MakeSummary(|ss|, Count(os, IsSuccessfulOutcome)).successful
      && |es| - Count(es, IsSuccessEntry) == MakeSummary(|ss|, Count(os, IsSuccessfulOutcome)).failed
  {
    CycleReportConsistent(ss, os, 0);
  }

  /** `this.state` and the log panel of the dashboard. `sessionStart` is the text stored under
      `keepAlive_startTime`. */
  class Dashboard {
    var services: seq<ServiceRecord>
    var totalPings: int
    var successfulPings: int
    var logs: seq<string>
    var sessionStart: Option<string>

    constructor ()
      ensures services == [] && totalPings == 0 && successfulPings == 0 && logs == [] && sessionStart.None?
    {
      services := [];
      totalPings := 0;
      successfulPings := 0;
      logs := [];
      sessionStart := None;
    }

    /** `log(message)`: the line is put first and the oldest lines beyond 100 are removed
        one by one from the end. */
    method Log(message: string, stamp: string)
      modifies this
      ensures logs == Take([LogLine(stamp, message)] + old(logs), MaxLogEntries)
      ensures services == old(services) && totalPings == old(totalPings)
        && successfulPings == old(successfulPings) && sessionStart == old(sessionStart)
    {
      var full := [LogLine(stamp, message)] + logs;
      logs := full;
      while |logs| > MaxLogEntries
        invariant logs <= full
        invariant |logs| < |full| ==> |logs| >= MaxLogEntries
        invariant services == old(services) && totalPings == old(totalPings)
        invariant successfulPings == old(successfulPings) && sessionStart == old(sessionStart)
        decreases |logs|
      {
        logs := logs[..|logs| - 1];
      }
      assert logs == full[..|logs|];
    }

    /** `validateServiceInput`: true exactly when the check passes; a failure is logged. */
    method ValidateServiceInput(name: Option<string>, url: Option<string>, interval: Option<int>,
                                parses: string -> bool, stamp: string)
      returns (ok: bool)
      modifies this
      ensures ok <==> ServiceInputCheck(old(services), name, url, interval, parses) == Pass
      ensures ok ==> logs == old(logs)
      ensures !ok ==> logs == Take([LogLine(stamp, ServiceInputCheck(old(services), name, url, interval, parses).message)] + old(logs), MaxLogEntries)
      ensures services == old(services) && totalPings == old(totalPings)
        && successfulPings == old(successfulPings) && sessionStart == old(sessionStart)
    {
      var check := ServiceInputCheck(services, name, url, interval, parses);
      if check.Fail? {
        Log(check.message, stamp);
        return false;
      }
      return true;
    }

    /** The success branch of `manualPingAll`: the counters are taken from the returned stats,
        the entries are tallied, the service list is replaced by `reloaded` (what
        `loadServices` fetched) and the summary is logged. */
    method RecordPingCycle(stats: PingStats, results: seq<ResultEntry>, reloaded: seq<ServiceRecord>,
                           stamp: string)
      returns (successCount: nat, errorCount: nat)
      modifies this
      ensures totalPings == stats.totalPings && successfulPings == stats.successfulPings
      ensures successCount == Count(results, IsSuccessEntry) && successCount + errorCount == |results|
      ensures services == reloaded
      ensures logs == Take([LogLine(stamp, PingSummary(successCount, errorCount))] + old(logs), MaxLogEntries)
      ensures sessionStart == old(sessionStart)
    {
      totalPings := stats.totalPings;
      successfulPings := stats.successfulPings;
      successCount, errorCount := CountResults(results);
      services := reloaded;
      Log(PingSummary(successCount, errorCount), stamp);
    }

    /** `calculateSystemUptime` at time `now`: the first call records the start and shows `0m`;
        later calls show the whole minutes since the recorded start. */
    method SystemUptime(now: int) returns (text: string)
      modifies this
      ensures old(sessionStart).None? ==> text == "0m" && sessionStart == Some(IntToDecimal(now))
      ensures old(sessionStart).Some? ==> sessionStart == old(sessionStart)
      ensures old(sessionStart).Some? ==>
        text == RenderDuration(SplitMinutes(ElapsedMinutes(now, ParseInt(old(sessionStart).value))))
      ensures services == old(services) && totalPings == old(totalPings)
        && successfulPings == old(successfulPings) && logs == old(logs)
    {
      if sessionStart.None? {
        sessionStart := Some(IntToDecimal(now));
        return "0m";
      }
      text := RenderDuration(SplitMinutes(ElapsedMinutes(now, ParseInt(sessionStart.value))));
    }
  }

  /** `Math.floor((now - start) / 60000)`; NaN when the start did not parse. */
  function ElapsedMinutes(now: int, start: Option<int>): (m: Option<int>)
    ensures start.None? <==> m.None?
    ensures start.Some? ==> 60000 * m.value <= now - start.value < 60000 * m.value + 60000
  {
    match start
    case None => None
    case Some(s) => Some((now - s) / 60000)
  }

  /** The start is stored as decimal text and read back with `parseInt`, so the minutes shown
      are those elapsed since the first call. */
  lemma SessionStartRoundTrip(start: int, now: int)
    ensures ElapsedMinutes(now, ParseInt(IntToDecimal(start))) == Some((now - start) / 60000)
  {
    ParseIntRoundTrip(start);
  }
}
