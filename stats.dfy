/** The per-user dashboard figures of api/stats.js, derived from the caller's monitors each time
    they are read and merged into the stored per-user stats map. */
module MonitorStats {
  import opened Basics
  import opened Seqs
  import opened Rounding
  import opened Text
  import opened Monitors

  /** `uptime`: the text `toFixed(1)` gives for a positive number of monitors, written here as
      tenths of a percent, or the number 100 when the caller has no monitor. */
  datatype Uptime = Tenths(tenths: nat) | NoMonitors

  /** The figures recomputed on every read. */
  datatype Derived = Derived(
    totalMonitors: nat,
    upMonitors: nat,
    downMonitors: nat,
    pausedMonitors: nat,
    avgResponseTime: nat,
    uptime: Uptime)

  /** The counters the ping side keeps, which a read carries over. */
  datatype Counters = Counters(totalPings: int, successfulPings: int, lastPingTime: Option<int>)

  /** One value of the stats map: the carried counters and, once read, the derived figures. */
  datatype StatsEntry = StatsEntry(counters: Counters, derived: Option<Derived>)

  /** `allStats[userId] || { totalPings: 0, successfulPings: 0, lastPingTime: null }`. */
  const DefaultCounters := Counters(0, 0, None)

  predicate IsUp(m: Monitor) { m.status == "active" }
  predicate IsDown(m: Monitor) { m.status == "error" }
  predicate IsPaused(m: Monitor) { m.status == "paused" }
  predicate IsOther(m: Monitor) { !IsUp(m) && !IsDown(m) && !IsPaused(m) }

  /** `m.response_time && m.response_time > 0`. */
  predicate HasResponseTime(m: Monitor) { m.responseTime.Some? && m.responseTime.value > 0 }

  /** The response time of a monitor that has one. */
  function TimeOf(m: Monitor): nat
    requires HasResponseTime(m)
  {
    m.responseTime.value
  }

  /** The response times that count towards the average, in monitor order. */
  function ResponseTimes(ms: seq<Monitor>): (r: seq<nat>)
    ensures |r| == Count(ms, HasResponseTime)
    ensures forall i :: 0 <= i < |r| ==> r[i] > 0
  {
    if ms == [] then []
    else
      assert ms == [ms[0]] + ms[1..];
      (if HasResponseTime(ms[0]) then [TimeOf(ms[0])] else []) + ResponseTimes(ms[1..])
  }

  /** `r` lists the response times of `timed`, position by position. */
  predicate TimesOf(r: seq<nat>, timed: seq<Monitor>)
  {
    && |r| == |timed|
    && forall i :: 0 <= i < |timed| ==> HasResponseTime(timed[i]) && r[i] == TimeOf(timed[i])
  }

  /** The times averaged are exactly the response times of the monitors that have one, in
      monitor order. */
  lemma {:induction false} ResponseTimesOfTimed(ms: seq<Monitor>)
    ensures TimesOf(ResponseTimes(ms), Filter(ms, HasResponseTime))
  {
    if ms != [] {
      assert ms == [ms[0]] + ms[1..];
      ResponseTimesOfTimed(ms[1..]);
      var tail := Filter(ms[1..], HasResponseTime);
      var rest := ResponseTimes(ms[1..]);
      if HasResponseTime(ms[0]) {
        assert Filter(ms, HasResponseTime) == [ms[0]] + tail;
        assert ResponseTimes(ms) == [TimeOf(ms[0])] + rest;
        TimesOfCons(ms[0], rest, tail);
      } else {
        assert Filter(ms, HasResponseTime) == tail;
        assert ResponseTimes(ms) == rest;
      }
    }
  }

  lemma TimesOfCons(m: Monitor, r: seq<nat>, timed: seq<Monitor>)
    requires HasResponseTime(m) && TimesOf(r, timed)
    ensures TimesOf([TimeOf(m)] + r, [m] + timed)
  {
    var r', timed' := [TimeOf(m)] + r, [m] + timed;
    forall i | 0 < i < |timed'| ensures HasResponseTime(timed'[i]) && r'[i] == TimeOf(timed'[i]) {
      assert timed'[i] == timed[i - 1] && r'[i] == r[i - 1];
    }
  }

  /** The largest element of a non-empty sequence. */
  function Largest(s: seq<nat>): (m: nat)
    requires s != []
    ensures forall i :: 0 <= i < |s| ==> s[i] <= m
    ensures exists i :: 0 <= i < |s| && s[i] == m
  {
    if |s| == 1 then s[0]
    else
      var rest := Largest(s[1..]);
      assert forall i :: 1 <= i < |s| ==> s[i] == s[1..][i - 1];
      if s[0] < rest then rest else s[0]
  }

  function Sum(s: seq<nat>): nat
  {
    if s == [] then 0 else s[0] + Sum(s[1..])
  }

  /** A sum of positive terms is at least their number. */
  lemma {:induction false} SumAtLeastLength(s: seq<nat>)
    requires forall i :: 0 <= i < |s| ==> s[i] > 0
    ensures Sum(s) >= |s|
  {
    if s != [] {
      SumAtLeastLength(s[1..]);
    }
  }

  /** A sum of terms none above `top` is at most `top` per term. */
  lemma {:induction false} SumAtMost(s: seq<nat>, top: nat)
    requires forall i :: 0 <= i < |s| ==> s[i] <= top
    ensures Sum(s) <= top * |s|
  {
    if s != [] {
      SumAtMost(s[1..], top);
      assert top * |s| == top + top * |s[1..]|;
    }
  }

  /** `Math.round(sum / count)`, or 0 with nothing to average: zero exactly when nothing is
      averaged, and otherwise at most the largest time averaged. */
  function Average(times: seq<nat>): (r: nat)
    requires forall i :: 0 <= i < |times| ==> times[i] > 0
    ensures r == 0 <==> times == []
    ensures times != [] ==>
      2 * |times| * r - |times| <= 2 * Sum(times) < 2 * |times| * r + |times|
    ensures times != [] ==> r <= Largest(times)
  {
    if |times| == 0 then 0
    else
      var r := RoundDiv(Sum(times), |times|);
      SumAtLeastLength(times);
      RoundedAbove(Sum(times), |times|, r, 1);
      SumAtMost(times, Largest(times));
      RoundedBelow(Sum(times), |times|, r, Largest(times));
      r
  }

  /** `((up / total) * 100).toFixed(1)`, in tenths; 100 with no monitors. */
  function UptimeOf(up: nat, total: nat): (u: Uptime)
    requires up <= total
    ensures total == 0 <==> u == NoMonitors
    ensures u.Tenths? ==> 2 * total * u.tenths - total <= 2000 * up < 2 * total * u.tenths + total
    ensures u.Tenths? ==> u.tenths <= 1000
    ensures u.Tenths? && up == total ==> u.tenths == 1000
    ensures u.Tenths? && up == 0 ==> u.tenths == 0
  {
    if total == 0 then NoMonitors
    else
      var t := RoundDiv(1000 * up, total);
      TenthsBounds(up, total, t);
      Tenths(t)
  }

  /** Half of the monitors up is 50.0, one of three is 33.3 and two of three is 66.7. */
  lemma UptimeExamples()
    ensures UptimeOf(1, 2) == Tenths(500) && FixedOne(500) == "50.0"
    ensures UptimeOf(1, 3) == Tenths(333) && UptimeOf(2, 3) == Tenths(667)
  {
    assert RoundDiv(1000, 2) == 500;
    assert RoundDiv(1000, 3) == 333;
    assert RoundDiv(2000, 3) == 667;
    assert NatToDecimal(50) == "50";
  }

  lemma TenthsBounds(up: nat, total: nat, t: int)
    requires 0 < total && up <= total && t == RoundDiv(1000 * up, total)
    ensures 0 <= t <= 1000
    ensures up == total ==> t == 1000
    ensures up == 0 ==> t == 0
  {
    RoundedBelow(1000 * up, total, t, 1000);
    RoundedAbove(1000 * up, total, t, 0);
    if up == total {
      RoundedAbove(1000 * up, total, t, 1000);
    }
    if up == 0 {
      RoundedBelow(0, total, t, 0);
    }
  }

  /** The counts by status, the average response time and the uptime of `ms`, the caller's
      monitors. 'warning' and any other status is counted in none of the three. */
  function DeriveStats(ms: seq<Monitor>): (d: Derived)
    ensures d.totalMonitors == |ms|
    ensures d.upMonitors == Count(ms, IsUp) && d.downMonitors == Count(ms, IsDown)
      && d.pausedMonitors == Count(ms, IsPaused)
    ensures d.upMonitors + d.downMonitors + d.pausedMonitors + Count(ms, IsOther) == d.totalMonitors
    ensures d.avgResponseTime == Average(ResponseTimes(ms))
    ensures d.avgResponseTime == 0 <==> Count(ms, HasResponseTime) == 0
    ensures d.uptime == UptimeOf(d.upMonitors, d.totalMonitors)
  {
    CountDisjoint3(ms, IsUp, IsDown, IsPaused, IsOther);
    var up := Count(ms, IsUp);
    Derived(|ms|, up, Count(ms, IsDown), Count(ms, IsPaused), Average(ResponseTimes(ms)), UptimeOf(up, |ms|))
  }

  /** The entry written for the caller: the stored counters (or the defaults when the caller
      has no entry yet) with the derived figures replaced. */
  function RefreshedEntry(all: map<int, StatsEntry>, userId: int, monitors: seq<Monitor>): (e: StatsEntry)
    ensures userId in all ==> e.counters == all[userId].counters
    ensures userId !in all ==> e.counters == DefaultCounters
    ensures e.derived == Some(DeriveStats(UserMonitors(monitors, userId)))
  {
    var prior := if userId in all then all[userId].counters else DefaultCounters;
    StatsEntry(prior, Some(DeriveStats(UserMonitors(monitors, userId))))
  }

  /** Only the caller's monitors are counted: another user's monitor changes nothing. */
  lemma OtherUsersIgnored(monitors: seq<Monitor>, m: Monitor, userId: int, all: map<int, StatsEntry>)
    requires m.userId != userId
    ensures RefreshedEntry(all, userId, monitors + [m]) == RefreshedEntry(all, userId, monitors)
  {
    UserMonitorsAppend(monitors, m, userId);
    assert UserMonitors(monitors, userId) + [] == UserMonitors(monitors, userId);
  }

  /** Writing one key of the stats map leaves every other key's entry as it was. */
  lemma UpdateKeepsOthers(all: map<int, StatsEntry>, userId: int, entry: StatsEntry)
    ensures forall u :: u in all && u != userId ==> u in all[userId := entry] && all[userId := entry][u] == all[u]
    ensures all[userId := entry].Keys == all.Keys + {userId}
  {
  }

  /** The stats map, keyed by user id; an absent value reads as the empty map. */
  class StatsTable {
    var all: map<int, StatsEntry>

    constructor (initial: map<int, StatsEntry>)
      ensures all == initial
    {
      all := initial;
    }

    /** GET: the caller's entry is recomputed from all stored monitors and written back; no
        other user's entry changes. */
    method Refresh(userId: int, monitors: seq<Monitor>) returns (entry: StatsEntry)
      modifies this
      ensures entry == RefreshedEntry(old(all), userId, monitors)
      ensures all == old(all)[userId := entry]
      ensures forall u :: u in old(all) && u != userId ==> u in all && all[u] == old(all)[u]
      ensures all.Keys == old(all).Keys + {userId}
    {
      ghost var before := all;
      entry := RefreshedEntry(all, userId, monitors);
      all := all[userId := entry];
      UpdateKeepsOthers(before, userId, entry);
    }
  }
}
