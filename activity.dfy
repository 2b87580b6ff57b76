/** The activity feed of api/activity.js: the caller's events, newest first, at most 50. */
module ActivityFeed {
  import opened Seqs

  /** A stored event; `timestamp` is the instant `new Date(timestamp)` denotes, in milliseconds. */
  datatype Activity = Activity(id: int, userId: int, kind: string, message: string, timestamp: int)

  /** `.slice(0, 50)`. */
  const FeedLimit := 50

  predicate OwnedBy(userId: int, a: Activity) { a.userId == userId }

  /** Newest first: no event is older than one after it. */
  predicate NewestFirst(s: seq<Activity>)
  {
    forall i, j :: 0 <= i < j < |s| ==> s[i].timestamp >= s[j].timestamp
  }

  /** `x` placed into a list in front of the first event that is not newer than it. */
  function Insert(x: Activity, s: seq<Activity>): (r: seq<Activity>)
    ensures multiset(r) == multiset(s) + multiset{x}
  {
    if s == [] || s[0].timestamp <= x.timestamp then [x] + s
    else
      assert s == [s[0]] + s[1..];
      [s[0]] + Insert(x, s[1..])
  }

  /** Inserting into a newest-first list keeps it newest first. */
  lemma {:induction false} InsertNewestFirst(x: Activity, s: seq<Activity>)
    requires NewestFirst(s)
    ensures NewestFirst(Insert(x, s))
  {
    if s != [] && s[0].timestamp > x.timestamp {
      var rest := Insert(x, s[1..]);
      InsertNewestFirst(x, s[1..]);
      forall k | 0 <= k < |rest| ensures rest[k].timestamp <= s[0].timestamp {
        assert rest[k] in multiset(rest);
        if rest[k] != x {
          assert rest[k] in multiset(s[1..]);
          var j :| 0 <= j < |s[1..]| && s[1..][j] == rest[k];
          assert s[j + 1] == rest[k];
        }
      }
      var r := [s[0]] + rest;
      forall i, j | 0 <= i < j < |r| ensures r[i].timestamp >= r[j].timestamp {
        if i > 0 {
          assert r[i] == rest[i - 1] && r[j] == rest[j - 1];
        } else {
          assert r[j] == rest[j - 1];
        }
      }
    }
  }

  /** `.sort((a, b) => new Date(b.timestamp) - new Date(a.timestamp))`: the same events,
      newest first. */
  function SortNewestFirst(s: seq<Activity>): (r: seq<Activity>)
    ensures NewestFirst(r)
    ensures multiset(r) == multiset(s)
  {
    if s == [] then []
    else
      assert s == [s[0]] + s[1..];
      var rest := SortNewestFirst(s[1..]);
      InsertNewestFirst(s[0], rest);
      Insert(s[0], rest)
  }

  /** The handler's reply for the caller. */
  function RecentActivities(all: seq<Activity>, userId: int): (r: seq<Activity>)
    ensures |r| <= FeedLimit
    ensures r <= SortNewestFirst(Filter(all, a => OwnedBy(userId, a)))
    ensures NewestFirst(r)
    ensures multiset(r) <= multiset(all)
    ensures forall a :: a in r ==> a in all && a.userId == userId
  {
    var mine := Filter(all, a => OwnedBy(userId, a));
    var sorted := SortNewestFirst(mine);
    var r := Take(sorted, FeedLimit);
    PrefixKeeps(r, sorted);
    FromStored(r, all, userId);
    r
  }

  /** A sub-multiset of the caller's filtered events comes from the stored list. */
  lemma FromStored(r: seq<Activity>, all: seq<Activity>, userId: int)
    requires multiset(r) <= multiset(Filter(all, a => OwnedBy(userId, a)))
    ensures multiset(r) <= multiset(all)
    ensures forall a :: a in r ==> a in all && a.userId == userId
  {
    var mine := Filter(all, a => OwnedBy(userId, a));
    forall a | a in r ensures a in all && a.userId == userId {
      assert a in multiset(r);
      assert a in multiset(mine);
      assert a in mine;
    }
  }

  lemma PrefixKeeps(r: seq<Activity>, s: seq<Activity>)
    requires r <= s && NewestFirst(s)
    ensures NewestFirst(r)
    ensures multiset(r) <= multiset(s)
  {
    assert s == r + s[|r|..];
  }

  /** The reply holds the most recent of the caller's events: every one of them left out is
      no newer than any returned, and when the caller has at most 50 all are returned. */
  lemma {:induction false} RecentAreMostRecent(all: seq<Activity>, userId: int)
    ensures var mine := Filter(all, a => OwnedBy(userId, a));
      var r := RecentActivities(all, userId);
      && (|mine| <= FeedLimit ==> multiset(r) == multiset(mine))
      && (|mine| > FeedLimit ==> |r| == FeedLimit)
      && forall i, j :: 0 <= i < |r| <= j < |SortNewestFirst(mine)| ==>
           SortNewestFirst(mine)[j].timestamp <= r[i].timestamp
  {
    var mine := Filter(all, a => OwnedBy(userId, a));
    var sorted := SortNewestFirst(mine);
    var r := RecentActivities(all, userId);
    if |mine| <= FeedLimit {
      assert r == sorted;
    }
    forall i, j | 0 <= i < |r| <= j < |sorted|
      ensures sorted[j].timestamp <= r[i].timestamp
    {
      assert r[i] == sorted[i];
    }
  }
}
