/** The per-user `keepalive:monitors` collection of api/monitors.js: validation of the
    submitted fields, the user's view of the list, and create, update and delete. The JWT
    check that yields the caller's user id happens before these and is not part of the model. */
module Monitors {
  import opened Basics
  import opened Seqs
  import opened Text

  /** A stored monitor. The JSON keys are snake_case (`user_id`, `created_at`, `updated_at`,
      `last_check`, `response_time`, `error_count`, `last_error`); `None` is `null` or absent. */
  datatype Monitor = Monitor(
    id: int,
    userId: int,
    name: string,
    url: string,
    monitorType: string,
    interval: Option<int>,
    status: string,
    createdAt: Option<int>,
    updatedAt: Option<int>,
    lastCheck: Option<int>,
    responseTime: Option<int>,
    errorCount: Option<int>,
    lastError: Option<string>)

  /** The fields of a request body. `name`, `url` and `type` are `None` when absent or not a
      string. `interval` is `Some(String(value))` for any value that is present (so the number
      `5` is `"5"`, which is what `parseInt` reads after converting its argument to a string),
      and `None` when absent, which `parseInt` reads as NaN. */
  datatype MonitorInput = MonitorInput(
    name: Option<string>,
    url: Option<string>,
    monitorType: Option<string>,
    interval: Option<string>)

  /** The `id` of an update body as JSON gives it: `===` never equates a string with a number. */
  datatype BodyId = NoId | NumberId(n: int) | TextId(s: string)

  const NameMessage := "Monitor name must be at least 2 characters"
  const UrlMessage := "Invalid URL provided"
  const TypeMessage := "Invalid monitor type. Must be http, ping, or port"
  const IntervalMessage := "Interval must be between 1 and 60 minutes"
  const DuplicateMessage := "A monitor with this URL already exists for this user"
  const IdRequiredMessage := "Monitor ID is required"
  const NotFoundMessage := "Monitor not found or unauthorized"

  const ValidTypes := ["http", "ping", "port"]

  // ------------------------------------------------------------------ validation

  predicate NameValid(name: Option<string>)
  {
    name.Some? && |Trim(name.value)| >= 2
  }

  /** `isUrl` is `validator.isURL`, whose behaviour the model does not fix. */
  predicate UrlValid(url: Option<string>, isUrl: string -> bool)
  {
    url.Some? && url.value != "" && isUrl(url.value)
  }

  predicate TypeValid(t: Option<string>)
  {
    t.Some? && ToLower(t.value) in ValidTypes
  }

  /** `parseInt(interval)` is a number from 1 to 60 (NaN and 0 being falsy). */
  predicate IntervalValid(interval: Option<string>)
  {
    var n := ParseOptional(interval);
    n.Some? && 1 <= n.value <= 60
  }

  /** `parseInt` of a value that may be `undefined`, which parses to NaN. */
  function ParseOptional(s: Option<string>): (r: Option<int>)
    ensures s.None? ==> r.None?
    ensures s.Some? ==> r == ParseInt(s.value)
  {
    match s
    case None => None
    case Some(v) => ParseInt(v)
  }

  /** `validateMonitorData`: the checks run in the order name, URL, type, interval, and the
      first one that fails gives the message; the data is valid exactly when all four pass. */
  function ValidateMonitorData(input: MonitorInput, isUrl: string -> bool): (c: Check)
    ensures c == Pass <==>
      NameValid(input.name) && UrlValid(input.url, isUrl) && TypeValid(input.monitorType) && IntervalValid(input.interval)
    ensures !NameValid(input.name) ==> c == Fail(NameMessage)
    ensures NameValid(input.name) && !UrlValid(input.url, isUrl) ==> c == Fail(UrlMessage)
    ensures NameValid(input.name) && UrlValid(input.url, isUrl) && !TypeValid(input.monitorType) ==>
      c == Fail(TypeMessage)
    ensures NameValid(input.name) && UrlValid(input.url, isUrl) && TypeValid(input.monitorType) ==>
      (!IntervalValid(input.interval) ==> c == Fail(IntervalMessage))
  {
    if !NameValid(input.name) then Fail(NameMessage)
    else if !UrlValid(input.url, isUrl) then Fail(UrlMessage)
    else if !TypeValid(input.monitorType) then Fail(TypeMessage)
    else if !IntervalValid(input.interval) then Fail(IntervalMessage)
    else Pass
  }

  /** The type check accepts any capitalisation of the three names and nothing else. */
  lemma TypeValidCases(t: string)
    ensures TypeValid(Some(t)) <==> ToLower(t) == "http" || ToLower(t) == "ping" || ToLower(t) == "port"
    ensures TypeValid(Some("HTTP")) && TypeValid(Some("Ping"))
    ensures !TypeValid(Some("https")) && !TypeValid(None)
  {
    assert ToLower("HTTP") == "http";
    assert ToLower("Ping") == "ping";
    assert ToLower("https") != "http" by {
      assert |ToLower("https")| == 5;
    }
  }

  /** The interval bounds are inclusive and a missing or non-numeric interval is rejected. */
  lemma IntervalBounds()
    ensures IntervalValid(Some("1")) && IntervalValid(Some("60"))
    ensures !IntervalValid(Some("0")) && !IntervalValid(Some("61")) && !IntervalValid(None)
  {
    IntervalOfDecimal(1);
    assert NatToDecimal(1) == "1";
    IntervalOfDecimal(60);
    assert NatToDecimal(60) == "60";
    IntervalOfDecimal(0);
    assert NatToDecimal(0) == "0";
    IntervalOfDecimal(61);
    assert NatToDecimal(61) == "61";
  }

  /** The interval written as a decimal number is valid exactly within 1 to 60. */
  lemma IntervalOfDecimal(n: nat)
    ensures IntervalValid(Some(NatToDecimal(n))) <==> 1 <= n <= 60
  {
    ParseIntRoundTrip(n);
  }

  // ------------------------------------------------------------------ the user's view

  predicate OwnedBy(userId: int, m: Monitor) { m.userId == userId }

  /** `getMonitors`: the caller's monitors, in stored order. */
  function UserMonitors(all: seq<Monitor>, userId: int): (r: seq<Monitor>)
    ensures forall m :: m in r <==> m in all && m.userId == userId
    ensures multiset(r) <= multiset(all)
  {
    Filter(all, m => OwnedBy(userId, m))
  }

  /** A monitor appended for one user shows up at the end of that user's view and in no one
      else's. */
  lemma UserMonitorsAppend(all: seq<Monitor>, m: Monitor, userId: int)
    ensures UserMonitors(all + [m], userId) == UserMonitors(all, userId) + (if m.userId == userId then [m] else [])
  {
    FilterAppend(all, [m], x => OwnedBy(userId, x));
    assert [m][1..] == [];
  }

  /** Does the user already watch this URL, ignoring case? */
  predicate HasUserUrl(all: seq<Monitor>, userId: int, url: string)
  {
    exists i :: 0 <= i < |all| && SameIgnoringCase(all[i].url, url) && all[i].userId == userId
  }

  /** Another user's monitors never block a URL. */
  lemma HasUserUrlOtherUser(all: seq<Monitor>, m: Monitor, userId: int, url: string)
    requires m.userId != userId
    ensures HasUserUrl(all + [m], userId, url) <==> HasUserUrl(all, userId, url)
  {
    var ext := all + [m];
    if HasUserUrl(ext, userId, url) {
      var i :| 0 <= i < |ext| && SameIgnoringCase(ext[i].url, url) && ext[i].userId == userId;
      assert i < |all| && all[i] == ext[i];
    }
    if HasUserUrl(all, userId, url) {
      var i :| 0 <= i < |all| && SameIgnoringCase(all[i].url, url) && all[i].userId == userId;
      assert ext[i] == all[i];
    }
  }

  /** `findIndex(m => m.id === id && m.user_id === userId)`. */
  function FindMonitorIndex(all: seq<Monitor>, id: int, userId: int): (i: int)
    ensures -1 <= i < |all|
    ensures i == -1 <==> forall j :: 0 <= j < |all| ==> !(all[j].id == id && all[j].userId == userId)
    ensures i >= 0 ==> all[i].id == id && all[i].userId == userId
    ensures i >= 0 ==> forall j :: 0 <= j < i ==> !(all[j].id == id && all[j].userId == userId)
  {
    if all == [] then -1
    else if all[0].id == id && all[0].userId == userId then 0
    else
      var k := FindMonitorIndex(all[1..], id, userId);
      if k == -1 then -1 else k + 1
  }

  // ------------------------------------------------------------------ the records written

  /** The monitor `createMonitor` builds from a valid body. */
  function NewMonitor(userId: int, input: MonitorInput, now: int): (m: Monitor)
    requires input.name.Some? && input.url.Some? && input.monitorType.Some?
    ensures m.id == now && m.userId == userId && m.createdAt == Some(now)
    ensures m.name == Trim(input.name.value) && m.url == Trim(input.url.value)
    ensures m.monitorType == ToLower(input.monitorType.value) && m.interval == ParseOptional(input.interval)
    ensures m.status == "active" && m.errorCount == Some(0)
    ensures m.lastCheck.None? && m.responseTime.None? && m.lastError.None? && m.updatedAt.None?
  {
    Monitor(now, userId, Trim(input.name.value), Trim(input.url.value), ToLower(input.monitorType.value),
            ParseOptional(input.interval), "active", Some(now), None, None, None, Some(0), None)
  }

  /** The spread `{...previous, ...}` of `updateMonitor`: the edited fields replaced, the status
      kept unless a non-empty one is given, the rest preserved. */
  function Updated(previous: Monitor, input: MonitorInput, status: Option<string>, now: int): (m: Monitor)
    requires input.name.Some? && input.url.Some? && input.monitorType.Some?
    ensures m.name == Trim(input.name.value) && m.url == Trim(input.url.value)
    ensures m.monitorType == ToLower(input.monitorType.value) && m.interval == ParseOptional(input.interval)
    ensures m.status == (if status.None? || status.value == "" then previous.status else status.value)
    ensures m.updatedAt == Some(now)
    ensures m.id == previous.id && m.userId == previous.userId && m.createdAt == previous.createdAt
      && m.lastCheck == previous.lastCheck && m.responseTime == previous.responseTime
      && m.errorCount == previous.errorCount && m.lastError == previous.lastError
  {
    previous.(name := Trim(input.name.value), url := Trim(input.url.value),
              monitorType := ToLower(input.monitorType.value), interval := ParseOptional(input.interval),
              status := if status.None? || status.value == "" then previous.status else status.value,
              updatedAt := Some(now))
  }

  /** `splice(i, 1)`: the list without its element at `i`, the others in order. */
  function RemoveAt(all: seq<Monitor>, i: nat): (r: seq<Monitor>)
    requires i < |all|
    ensures |r| == |all| - 1
    ensures forall j :: 0 <= j < i ==> r[j] == all[j]
    ensures forall j :: i <= j < |r| ==> r[j] == all[j + 1]
    ensures multiset(r) + multiset{all[i]} == multiset(all)
  {
    assert all == all[..i] + [all[i]] + all[i + 1..];
    all[..i] + all[i + 1..]
  }

  /** Deleting one of the caller's monitors leaves every other user's view as it was. */
  lemma RemoveAtOtherUsers(all: seq<Monitor>, i: nat, other: int)
    requires i < |all| && all[i].userId != other
    ensures UserMonitors(RemoveAt(all, i), other) == UserMonitors(all, other)
  {
    var p := (m: Monitor) => OwnedBy(other, m);
    assert all == all[..i] + ([all[i]] + all[i + 1..]);
    FilterAppend(all[..i], [all[i]] + all[i + 1..], p);
    FilterAppend([all[i]], all[i + 1..], p);
    assert [all[i]][1..] == [];
    FilterAppend(all[..i], all[i + 1..], p);
  }

  /** Replacing one of the caller's monitors by one with the same owner leaves every other
      user's view as it was. */
  lemma ReplaceOtherUsers(all: seq<Monitor>, i: nat, m: Monitor, other: int)
    requires i < |all| && all[i].userId == m.userId && m.userId != other
    ensures UserMonitors(all[i := m], other) == UserMonitors(all, other)
  {
    var p := (x: Monitor) => OwnedBy(other, x);
    var after := all[i := m];
    assert all == all[..i] + ([all[i]] + all[i + 1..]);
    assert after == all[..i] + ([m] + all[i + 1..]);
    FilterAppend(all[..i], [all[i]] + all[i + 1..], p);
    FilterAppend(all[..i], [m] + all[i + 1..], p);
    FilterAppend([all[i]], all[i + 1..], p);
    FilterAppend([m], all[i + 1..], p);
    assert [all[i]][1..] == [] && [m][1..] == [];
  }

  /** `!id` for a body id: absent, 0 and the empty string are falsy. */
  predicate Falsy(id: BodyId)
  {
    id.NoId? || id == NumberId(0) || id == TextId("")
  }

  /** The index `updateMonitor` writes to: only a numeric id can equal a stored id. */
  function FindByBodyId(all: seq<Monitor>, id: BodyId, userId: int): (i: int)
    ensures -1 <= i < |all|
    ensures !id.NumberId? ==> i == -1
    ensures id.NumberId? ==> i == FindMonitorIndex(all, id.n, userId)
  {
    if id.NumberId? then FindMonitorIndex(all, id.n, userId) else -1
  }

  // ------------------------------------------------------------------ the collection

  /** The stored list; an absent or empty `keepalive:monitors` value reads as `[]`. */
  class MonitorStore {
    var monitors: seq<Monitor>

    constructor (initial: seq<Monitor>)
      ensures monitors == initial
    {
      monitors := initial;
    }

    /** GET: the caller's monitors; nothing is written. */
    method GetMonitors(userId: int) returns (r: seq<Monitor>)
      ensures r == UserMonitors(monitors, userId)
    {
      r := UserMonitors(monitors, userId);
    }

    /** POST: 400 with the first validation message, or with the duplicate message when the
        caller already has the URL (ignoring case); otherwise exactly one monitor is appended. */
    method CreateMonitor(userId: int, input: MonitorInput, isUrl: string -> bool, now: int)
      returns (reply: Reply<Monitor>)
      modifies this
      ensures ValidateMonitorData(input, isUrl).Fail? ==>
        reply == Err(400, ValidateMonitorData(input, isUrl).message) && monitors == old(monitors)
      ensures ValidateMonitorData(input, isUrl) == Pass && HasUserUrl(old(monitors), userId, input.url.value) ==>
        reply == Err(400, DuplicateMessage) && monitors == old(monitors)
      ensures ValidateMonitorData(input, isUrl) == Pass && !HasUserUrl(old(monitors), userId, input.url.value) ==>
        reply == Ok(NewMonitor(userId, input, now)) && monitors == old(monitors) + [NewMonitor(userId, input, now)]
    {
      var validation := ValidateMonitorData(input, isUrl);
      if validation.Fail? {
        return Err(400, validation.message);
      }
      if HasUserUrl(monitors, userId, input.url.value) {
        return Err(400, DuplicateMessage);
      }
      var created := NewMonitor(userId, input, now);
      monitors := monitors + [created];
      reply := Ok(created);
    }

    /** PUT: 400 without an id, 400 with the first validation message, 404 when the caller has
        no monitor with that id; otherwise that one entry is replaced and the length kept. */
    method UpdateMonitor(userId: int, id: BodyId, input: MonitorInput, status: Option<string>,
                         isUrl: string -> bool, now: int)
      returns (reply: Reply<Monitor>)
      modifies this
      ensures Falsy(id) ==> reply == Err(400, IdRequiredMessage)
      ensures !Falsy(id) && ValidateMonitorData(input, isUrl).Fail? ==>
        reply == Err(400, ValidateMonitorData(input, isUrl).message)
      ensures !Falsy(id) && ValidateMonitorData(input, isUrl) == Pass && FindByBodyId(old(monitors), id, userId) == -1 ==>
        reply == Err(404, NotFoundMessage)
      ensures !Falsy(id) && ValidateMonitorData(input, isUrl) == Pass && FindByBodyId(old(monitors), id, userId) >= 0 ==>
        reply.Ok?
      ensures reply.Err? ==> monitors == old(monitors)
      ensures reply.Ok? ==>
        && !Falsy(id) && ValidateMonitorData(input, isUrl) == Pass
        && var i := FindByBodyId(old(monitors), id, userId);
           && 0 <= i < |old(monitors)|
           && reply.value == Updated(old(monitors)[i], input, status, now)
           && monitors == old(monitors)[i := reply.value]
    {
      if Falsy(id) {
        return Err(400, IdRequiredMessage);
      }
      var validation := ValidateMonitorData(input, isUrl);
      if validation.Fail? {
        return Err(400, validation.message);
      }
      var monitorIndex := FindByBodyId(monitors, id, userId);
      if monitorIndex == -1 {
        return Err(404, NotFoundMessage);
      }
      var updated := Updated(monitors[monitorIndex], input, status, now);
      monitors := monitors[monitorIndex := updated];
      reply := Ok(updated);
    }

    /** DELETE with the raw `id` query parameter: 400 when it parses to NaN or 0, 404 when the
        caller has no monitor with that id; otherwise the first such monitor is spliced out. */
    method DeleteMonitor(userId: int, rawId: Option<string>) returns (reply: Reply<()>)
      modifies this
      ensures var n := ParseOptional(rawId);
        && (n.None? || n.value == 0 ==> reply == Err(400, IdRequiredMessage) && monitors == old(monitors))
        && (n.Some? && n.value != 0 && FindMonitorIndex(old(monitors), n.value, userId) == -1 ==>
              reply == Err(404, NotFoundMessage) && monitors == old(monitors))
        && (n.Some? && n.value != 0 && FindMonitorIndex(old(monitors), n.value, userId) >= 0 ==>
              reply == Ok(()) && monitors == RemoveAt(old(monitors), FindMonitorIndex(old(monitors), n.value, userId)))
    {
      var monitorId := ParseOptional(rawId);
      if monitorId.None? || monitorId.value == 0 {
        return Err(400, IdRequiredMessage);
      }
      var monitorIndex := FindMonitorIndex(monitors, monitorId.value, userId);
      if monitorIndex == -1 {
        return Err(404, NotFoundMessage);
      }
      monitors := RemoveAt(monitors, monitorIndex);
      reply := Ok(());
    }
  }
}
