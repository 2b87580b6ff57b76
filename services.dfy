/** The `keepalive:services` list as api/services.js reads and writes it. */
module Services {
  import opened Basics
  import opened Seqs
  import opened Text
  import opened Ping

  /** `await kv.get(SERVICES_KEY) || []`: the stored list, or the empty one when nothing is stored. */
  function LoadServices(stored: Option<seq<ServiceRecord>>): (r: seq<ServiceRecord>)
    ensures stored.Some? ==> r == stored.value
    ensures stored.None? ==> r == []
  {
    stored.GetOr([])
  }

  /** The record POST creates: the id and creation time are the current time, the interval is
      `parseInt` of the body's value, passed here as `String(value)` (the dashboard sends a
      number; an absent value is `"undefined"`, which is NaN), the service starts 'active' with
      no error and no ping. */
  function NewService(name: string, url: string, interval: string, now: int): (s: ServiceRecord)
    ensures s.id == now && s.created == Some(now) && s.name == name && s.url == url
    ensures s.interval == ParseInt(interval)
    ensures s.status == "active" && s.errorCount == Some(0) && s.lastPing.None?
    ensures s.lastError.None? && s.lastErrorTime.None? && s.responseTime.None?
  {
    ServiceRecord(now, name, url, ParseInt(interval), Some(now), None, "active", Some(0), None, None, None)
  }

  /** A service DELETE keeps: one whose id differs from the parsed one. `NaN !== x` holds for
      every `x`, so an absent or unparsable id keeps every service. */
  predicate KeptBy(id: Option<int>, s: ServiceRecord)
  {
    id.None? || s.id != id.value
  }

  /** The list DELETE writes back: the stored services whose id is not the one given, in order. */
  function RemainingServices(ss: seq<ServiceRecord>, id: Option<int>): (r: seq<ServiceRecord>)
    ensures forall s :: s in r <==> s in ss && KeptBy(id, s)
    ensures id.Some? ==> forall s :: s in r ==> s.id != id.value
    ensures |r| + Count(ss, s => !KeptBy(id, s)) == |ss|
  {
    CountComplement(ss, s => !KeptBy(id, s), s => KeptBy(id, s));
    Filter(ss, s => KeptBy(id, s))
  }

  /** Deleting keeps the relative order: removing from a concatenation removes from each part. */
  lemma RemainingKeepsOrder(a: seq<ServiceRecord>, b: seq<ServiceRecord>, id: Option<int>)
    ensures RemainingServices(a + b, id) == RemainingServices(a, id) + RemainingServices(b, id)
  {
    FilterAppend(a, b, s => KeptBy(id, s));
  }

  /** An absent or unparsable id deletes nothing. */
  lemma DeleteWithoutId(ss: seq<ServiceRecord>)
    ensures RemainingServices(ss, None) == ss
  {
    FilterAllKept(ss, s => KeptBy(None, s));
  }

  /** An id no service carries deletes nothing either. */
  lemma DeleteUnknownId(ss: seq<ServiceRecord>, id: int)
    requires forall i :: 0 <= i < |ss| ==> ss[i].id != id
    ensures RemainingServices(ss, Some(id)) == ss
  {
    FilterAllKept(ss, s => KeptBy(Some(id), s));
  }

  /** The store behind the handler: the value of `keepalive:services`, absent until first written. */
  class ServiceStore {
    var stored: Option<seq<ServiceRecord>>

    constructor (initial: Option<seq<ServiceRecord>>)
      ensures stored == initial
    {
      stored := initial;
    }

    /** GET: the services, `[]` when none are stored; nothing is written. */
    method Get() returns (r: seq<ServiceRecord>)
      ensures r == LoadServices(stored)
    {
      r := LoadServices(stored);
    }

    /** POST: exactly one new service is appended after the existing ones, and returned. */
    method Post(name: string, url: string, interval: string, now: int) returns (created: ServiceRecord)
      modifies this
      ensures created == NewService(name, url, interval, now)
      ensures stored == Some(LoadServices(old(stored)) + [created])
    {
      created := NewService(name, url, interval, now);
      var current := LoadServices(stored);
      current := current + [created];
      stored := Some(current);
    }

    /** DELETE with the raw `id` query parameter: the list without the services carrying the
        parsed id is written back, and the reply is a success whether or not anything matched. */
    method Delete(rawId: string) returns (reply: Reply<()>)
      modifies this
      ensures reply == Ok(())
      ensures stored == Some(RemainingServices(LoadServices(old(stored)), ParseInt(rawId)))
    {
      var serviceId := ParseInt(rawId);
      var list := LoadServices(stored);
      stored := Some(RemainingServices(list, serviceId));
      reply := Ok(());
    }
  }
}
