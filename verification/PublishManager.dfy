/** The flood check on publishers: a list of recent call times per user, expired times dropped from its front
    only. With the steady clock this is the same as looking through the whole history of calls. */
module PublishManager {

  const FLOOD_ATTACK_NUMBER_MAX := 20
  const FLOOD_ATTACK_INTERVAL_MAX := 5  // milliseconds

  datatype Call = Call(uid: int, time: int)

  predicate Sorted(times: seq<int>) {
    forall i, j :: 0 <= i <= j < |times| ==> times[i] <= times[j]
  }

  /** The times within the interval before `now`, wherever they are in the list. */
  function Recent(times: seq<int>, now: int): seq<int> {
    if times == [] then []
    else (if now - times[0] <= FLOOD_ATTACK_INTERVAL_MAX then [times[0]] else []) + Recent(times[1..], now)
  }

  /** What is left after expired times are erased from the front, up to the first that is not expired. */
  function Evict(times: seq<int>, now: int): seq<int> {
    if times != [] && now - times[0] > FLOOD_ATTACK_INTERVAL_MAX then Evict(times[1..], now) else times
  }

  /** On times in order, erasing from the front drops all expired ones. */
  lemma {:induction false} EvictIsRecent(times: seq<int>, now: int)
    requires Sorted(times)
    ensures Evict(times, now) == Recent(times, now)
  {
    if times != [] {
      EvictIsRecent(times[1..], now);
      if now - times[0] <= FLOOD_ATTACK_INTERVAL_MAX {
        assert forall i :: 0 <= i < |times| ==> times[0] <= times[i];
        AllRecent(times, now);
      }
    }
  }

  lemma {:induction false} AllRecent(times: seq<int>, now: int)
    requires forall t :: t in times ==> now - t <= FLOOD_ATTACK_INTERVAL_MAX
    ensures Recent(times, now) == times
  {
    if times != [] {
      assert times[0] in times && forall t :: t in times[1..] ==> t in times;
      AllRecent(times[1..], now);
    }
  }

  /** What was expired stays expired. */
  lemma {:induction false} RecentTwice(times: seq<int>, now: int, later: int)
    requires now <= later
    ensures Recent(Recent(times, now), later) == Recent(times, later)
  {
    if times != [] {
      RecentTwice(times[1..], now, later);
      var rest := Recent(times[1..], now);
      assert ([times[0]] + rest)[1..] == rest && [] + rest == rest;
    }
  }

  lemma {:induction false} RecentAppend(times: seq<int>, t: int, now: int)
    ensures Recent(times + [t], now) == Recent(times, now) + (if now - t <= FLOOD_ATTACK_INTERVAL_MAX then [t] else [])
  {
    var last := if now - t <= FLOOD_ATTACK_INTERVAL_MAX then [t] else [];
    if times == [] {
      assert times + [t] == [t] && [t][1..] == [];
      assert last + [] == last;
    } else {
      var first := if now - times[0] <= FLOOD_ATTACK_INTERVAL_MAX then [times[0]] else [];
      assert (times + [t])[0] == times[0] && (times + [t])[1..] == times[1..] + [t];
      RecentAppend(times[1..], t, now);
      assert first + (Recent(times[1..], now) + last) == first + Recent(times[1..], now) + last;
    }
  }

  lemma {:induction false} RecentPart(times: seq<int>, now: int, t: int)
    requires t in Recent(times, now)
    ensures t in times
  {
    if t in Recent(times[1..], now) {
      RecentPart(times[1..], now, t);
    } else {
      assert t == times[0];
    }
  }

  lemma {:induction false} RecentSorted(times: seq<int>, now: int)
    requires Sorted(times)
    ensures Sorted(Recent(times, now))
  {
    if times != [] {
      RecentSorted(times[1..], now);
      var rest := Recent(times[1..], now);
      forall i | 0 <= i < |rest| ensures times[0] <= rest[i] {
        assert rest[i] in rest;
        RecentPart(times[1..], now, rest[i]);
        var j :| 1 <= j < |times| && times[j] == rest[i];
      }
    }
  }

  // ---- Histories

  /** The times of a user's calls, oldest first. */
  function TimesOf(calls: seq<Call>, uid: int): seq<int> {
    if calls == [] then []
    else TimesOf(calls[..|calls| - 1], uid) + (if calls[|calls| - 1].uid == uid then [calls[|calls| - 1].time] else [])
  }

  /** A log of a clock that does not run backwards. */
  ghost predicate Steady(calls: seq<Call>) {
    forall i, j :: 0 <= i <= j < |calls| ==> calls[i].time <= calls[j].time
  }

  lemma {:induction false} TimesSorted(calls: seq<Call>, uid: int)
    requires Steady(calls)
    ensures Sorted(TimesOf(calls, uid))
    ensures forall t :: t in TimesOf(calls, uid) ==> calls != [] && t <= calls[|calls| - 1].time
  {
    if calls != [] {
      var init := calls[..|calls| - 1];
      TimesSorted(init, uid);
      assert init != [] ==> init[|init| - 1].time <= calls[|calls| - 1].time;
      LaterTime(TimesOf(init, uid), calls[|calls| - 1].time);
    }
  }

  lemma LaterTime(times: seq<int>, now: int)
    requires Sorted(times) && forall t :: t in times ==> t <= now
    ensures Sorted(times + [now]) && forall t :: t in times + [now] ==> t <= now
  {
    forall i | 0 <= i < |times| ensures times[i] <= now {
      assert times[i] in times;
    }
  }

  /** How many calls of the user came within the interval before `now`, whether they were accepted or not. */
  function RecentCalls(calls: seq<Call>, uid: int, now: int): nat {
    |Recent(TimesOf(calls, uid), now)|
  }

  /** A call is flagged when its user made at least 20 calls in the 5 milliseconds up to it. */
  predicate Flagged(calls: seq<Call>, call: Call) {
    RecentCalls(calls, call.uid, call.time) >= FLOOD_ATTACK_NUMBER_MAX
  }

  /** The statistics of a user are its calls within the interval before its last one. */
  predicate TracksUser(statistics: map<int, seq<int>>, uid: int, times: seq<int>) {
    if times == [] then uid !in statistics
    else uid in statistics && statistics[uid] == Recent(times, times[|times| - 1])
  }

  ghost predicate Tracks(statistics: map<int, seq<int>>, calls: seq<Call>) {
    forall uid :: TracksUser(statistics, uid, TimesOf(calls, uid))
  }

  lemma {:induction false} LastBefore(calls: seq<Call>, uid: int, now: int)
    requires forall c :: c in calls ==> c.time <= now
    ensures forall t :: t in TimesOf(calls, uid) ==> t <= now
  {
    if calls != [] {
      assert calls[|calls| - 1] in calls && forall c :: c in calls[..|calls| - 1] ==> c in calls;
      LastBefore(calls[..|calls| - 1], uid, now);
    }
  }

  /** What a known user's list becomes when its expired front is erased. */
  lemma EvictTracked(statistics: map<int, seq<int>>, calls: seq<Call>, uid: int, now: int)
    requires Tracks(statistics, calls) && Steady(calls) && uid in statistics && forall c :: c in calls ==> c.time <= now
    ensures Evict(statistics[uid], now) == Recent(TimesOf(calls, uid), now)
  {
    var times := TimesOf(calls, uid);
    assert TracksUser(statistics, uid, times);
    var last := times[|times| - 1];
    TimesSorted(calls, uid);
    LastBefore(calls, uid, now);
    assert last in times;
    RecentTwice(times, last, now);
    RecentSorted(times, last);
    EvictIsRecent(statistics[uid], now);
  }

  lemma TrackCall(statistics: map<int, seq<int>>, calls: seq<Call>, uid: int, now: int)
    requires Tracks(statistics, calls)
    ensures Tracks(statistics[uid := Recent(TimesOf(calls, uid), now) + [now]], calls + [Call(uid, now)])
  {
    var calls1 := calls + [Call(uid, now)];
    var list := Recent(TimesOf(calls, uid), now) + [now];
    assert calls1[..|calls|] == calls;
    forall u ensures TracksUser(statistics[uid := list], u, TimesOf(calls1, u)) {
      assert TracksUser(statistics, u, TimesOf(calls, u));
      if u == uid {
        RecentAppend(TimesOf(calls, uid), now, now);
      } else {
        assert TimesOf(calls, u) + [] == TimesOf(calls, u);
      }
    }
  }

  class Manager {
    var floodAttackAppStatistics: map<int, seq<int>>
    ghost var calls: seq<Call>

    ghost predicate Valid()
      reads this
    {
      Steady(calls) && Tracks(floodAttackAppStatistics, calls)
    }

    constructor ()
      ensures Valid() && calls == []
    {
      floodAttackAppStatistics, calls := map[], [];
    }

    /** The verdict is what looking through the whole history says. */
    method CheckIsFloodAttack(appUid: int, now: int) returns (isAttacked: bool)
      requires Valid() && forall c :: c in calls ==> c.time <= now
      modifies this
      ensures Valid() && calls == old(calls) + [Call(appUid, now)]
      ensures isAttacked <==> Flagged(old(calls), Call(appUid, now))
    {
      isAttacked := false;
      ghost var recent := Recent(TimesOf(calls, appUid), now);
      TrackCall(floodAttackAppStatistics, calls, appUid, now);
      assert TracksUser(floodAttackAppStatistics, appUid, TimesOf(calls, appUid));
      if appUid !in floodAttackAppStatistics {
        assert recent == [] && recent + [now] == [now];
        floodAttackAppStatistics := floodAttackAppStatistics[appUid := [now]];
        calls := calls + [Call(appUid, now)];
        return;
      }
      var list := floodAttackAppStatistics[appUid];
      EvictTracked(floodAttackAppStatistics, calls, appUid, now);
      while list != [] && now - list[0] > FLOOD_ATTACK_INTERVAL_MAX
        invariant Evict(list, now) == recent
      {
        list := list[1..];
      }
      assert list == recent;
      if |list| + 1 > FLOOD_ATTACK_NUMBER_MAX {
        isAttacked := true;
      }
      floodAttackAppStatistics := floodAttackAppStatistics[appUid := list + [now]];
      calls := calls + [Call(appUid, now)];
    }
  }

  // ---- How much gets through

  /** The accepted calls of a user from the `i`-th call up to but not including the `j`-th. */
  function Accepted(calls: seq<Call>, uid: int, i: nat, j: nat): nat
    requires i <= j <= |calls|
    decreases j - i
  {
    if i == j then 0
    else
      Accepted(calls, uid, i, j - 1)
      + (if calls[j - 1].uid == uid && !Flagged(calls[..j - 1], calls[j - 1]) then 1 else 0)
  }

  /** Accepted calls are calls: those within the interval are among the recent ones. */
  lemma {:induction false} AcceptedAreRecent(calls: seq<Call>, uid: int, i: nat, j: nat, now: int)
    requires i <= j <= |calls| && Steady(calls) && (i < j ==> now - calls[i].time <= FLOOD_ATTACK_INTERVAL_MAX)
    ensures Accepted(calls, uid, i, j) <= RecentCalls(calls[..j], uid, now)
    decreases j - i
  {
    if i < j {
      AcceptedAreRecent(calls, uid, i, j - 1, now);
      assert calls[..j][..j - 1] == calls[..j - 1];
      var times := TimesOf(calls[..j - 1], uid);
      RecentAppend(times, calls[j - 1].time, now);
      assert calls[i].time <= calls[j - 1].time;
      assert times + [] == times;
    }
  }

  /** Calls that come within 5 milliseconds of each other contain at most 20 accepted ones of any user. */
  lemma {:induction false} AtMostTwenty(calls: seq<Call>, uid: int, i: nat, j: nat)
    requires i < j <= |calls| && Steady(calls) && calls[j - 1].time - calls[i].time <= FLOOD_ATTACK_INTERVAL_MAX
    ensures Accepted(calls, uid, i, j) <= FLOOD_ATTACK_NUMBER_MAX
    decreases j - i
  {
    var last := calls[j - 1];
    if last.uid == uid && !Flagged(calls[..j - 1], last) {
      AcceptedAreRecent(calls, uid, i, j - 1, last.time);
    } else if i < j - 1 {
      assert calls[j - 2].time <= last.time;
      AtMostTwenty(calls, uid, i, j - 1);
    }
  }

  /** Twenty at once do get through: the bound is the best possible. */
  lemma {:induction false} TwentyGetThrough(uid: int, time: int, n: nat)
    requires n <= FLOOD_ATTACK_NUMBER_MAX
    ensures var calls := seq(n, _ => Call(uid, time));
            Accepted(calls, uid, 0, n) == n && RecentCalls(calls, uid, time) == n
  {
    var calls := seq(n, _ => Call(uid, time));
    if n > 0 {
      var fewer := seq(n - 1, _ => Call(uid, time));
      TwentyGetThrough(uid, time, n - 1);
      assert calls[..n - 1] == fewer;
      RecentAppend(TimesOf(fewer, uid), time, time);
      SamePrefix(calls, fewer, uid, n - 1);
    }
  }

  lemma {:induction false} SamePrefix(a: seq<Call>, b: seq<Call>, uid: int, n: nat)
    requires n <= |a| && n <= |b| && a[..n] == b[..n]
    ensures Accepted(a, uid, 0, n) == Accepted(b, uid, 0, n)
  {
    if n > 0 {
      assert a[..n - 1] == a[..n][..n - 1] && b[..n - 1] == b[..n][..n - 1];
      assert a[n - 1] == a[..n][n - 1] && b[n - 1] == b[..n][n - 1];
      SamePrefix(a, b, uid, n - 1);
    }
  }
}
