/** One subscriber's buffer of events held back while it is frozen. Each append drops at most one old event, so
    the buffer is not "everything of the last 30 seconds": it is a window that never shrinks. */
module FrozenWindow {

  const FREEZE_EVENT_TIMEOUT := 30

  datatype Event = Event(id: int, time: int)

  /** What an insertion does to a subscriber's list: append, then drop the oldest if it is now too old. */
  function Append(list: seq<Event>, e: Event): (r: seq<Event>)
    ensures r != [] && r[|r| - 1] == e
  {
    var longer := list + [e];
    if longer[|longer| - 1].time - longer[0].time > FREEZE_EVENT_TIMEOUT then longer[1..] else longer
  }

  /** The buffer after these events arrived, starting from nothing. */
  function Window(events: seq<Event>): seq<Event> {
    if events == [] then [] else Append(Window(events[..|events| - 1]), events[|events| - 1])
  }

  ghost predicate Monotone(events: seq<Event>) {
    forall i, j :: 0 <= i <= j < |events| ==> events[i].time <= events[j].time
  }

  /** The events from `i` up to but not including `j` span at most the timeout. */
  ghost predicate Fits(events: seq<Event>, i: nat, j: nat) {
    i < j <= |events| && events[j - 1].time - events[i].time <= FREEZE_EVENT_TIMEOUT
  }

  /** `n` is the length of the longest run of consecutive events that fits. */
  ghost predicate Longest(events: seq<Event>, n: nat) {
    && (n == 0 || exists i: nat, j: nat :: Fits(events, i, j) && j - i == n)
    && (forall i: nat, j: nat :: Fits(events, i, j) ==> j - i <= n)
  }

  predicate IsSuffix(a: seq<Event>, b: seq<Event>) {
    |a| <= |b| && forall i :: 0 <= i < |a| ==> a[i] == b[|b| - |a| + i]
  }

  lemma SuffixIs(a: seq<Event>, b: seq<Event>)
    requires IsSuffix(a, b)
    ensures a == b[|b| - |a|..]
  {
  }

  lemma SuffixOfSuffix(a: seq<Event>, b: seq<Event>, c: seq<Event>)
    requires IsSuffix(a, b) && IsSuffix(b, c)
    ensures IsSuffix(a, c)
  {
  }

  lemma SuffixGrows(a: seq<Event>, b: seq<Event>, e: Event)
    requires IsSuffix(a, b)
    ensures IsSuffix(a + [e], b + [e])
  {
  }

  lemma SuffixShrinks(a: seq<Event>, b: seq<Event>)
    requires IsSuffix(a, b) && a != []
    ensures IsSuffix(a[1..], b)
  {
  }

  lemma SuffixOfRest(a: seq<Event>, b: seq<Event>)
    requires IsSuffix(a, b) && |a| < |b|
    ensures IsSuffix(a, b[1..])
  {
  }

  lemma AppendIsSuffix(list: seq<Event>, before: seq<Event>, e: Event)
    requires IsSuffix(list, before)
    ensures IsSuffix(Append(list, e), before + [e])
  {
    SuffixGrows(list, before, e);
    SuffixShrinks(list + [e], before + [e]);
  }

  /** Whatever the clock does, the buffer is the most recent events in their order, and never loses the newest. */
  lemma {:induction false} WindowIsSuffix(events: seq<Event>)
    ensures IsSuffix(Window(events), events)
    ensures events != [] ==> Window(events) != []
  {
    if events != [] {
      var before, e := events[..|events| - 1], events[|events| - 1];
      assert before + [e] == events;
      WindowIsSuffix(before);
      AppendIsSuffix(Window(before), before, e);
    }
  }

  /** With a clock that does not run backwards the buffer is the suffix as long as the longest run so far. */
  lemma {:induction false} WindowIsLongestRun(events: seq<Event>)
    requires Monotone(events)
    ensures IsSuffix(Window(events), events) && Longest(events, |Window(events)|)
  {
    WindowIsSuffix(events);
    if events != [] {
      var before := events[..|events| - 1];
      MonotoneBefore(events);
      WindowIsLongestRun(before);
      AppendIsLongest(events, Window(before));
    } else {
      LongestOfNone();
    }
  }

  lemma MonotoneBefore(events: seq<Event>)
    requires events != [] && Monotone(events)
    ensures Monotone(events[..|events| - 1])
  {
  }

  lemma LongestOfNone()
    ensures Longest([], 0)
  {
    assert forall i: nat, j: nat :: !Fits([], i, j);
  }

  lemma AppendIsLongest(events: seq<Event>, list: seq<Event>)
    requires events != [] && Monotone(events)
    requires IsSuffix(list, events[..|events| - 1]) && Longest(events[..|events| - 1], |list|)
    ensures Longest(events, |Append(list, events[|events| - 1])|)
  {
    var n := |events| - 1;
    LongestGrows(events, |list|);
    assert (list + [events[n]])[0] == events[n - |list|];
  }

  /** One more event: the longest run grows by one exactly when the run of that length ending here fits. */
  lemma LongestGrows(events: seq<Event>, k: nat)
    requires events != [] && Monotone(events) && k < |events| && Longest(events[..|events| - 1], k)
    ensures var grown := events[|events| - 1].time - events[|events| - 1 - k].time <= FREEZE_EVENT_TIMEOUT;
            Longest(events, if grown then k + 1 else k)
  {
    var n := |events| - 1;
    var before := events[..n];
    var grown := events[n].time - events[n - k].time <= FREEZE_EVENT_TIMEOUT;
    if grown {
      assert Fits(events, n - k, n + 1);
    } else if k > 0 {
      var i: nat, j: nat :| Fits(before, i, j) && j - i == k;
      assert Fits(events, i, j);
    }
    forall i: nat, j: nat | Fits(events, i, j) ensures j - i <= if grown then k + 1 else k {
      if j <= n {
        assert Fits(before, i, j);
      } else if i < n {
        assert Fits(before, i, n) by { assert events[n - 1].time <= events[n].time; }
        if i <= n - k { assert events[i].time <= events[n - k].time; }
      }
    }
  }

  /** The longest run is unique, so the buffer is determined by the events alone. */
  lemma LongestIsUnique(events: seq<Event>, m: nat, n: nat)
    requires Longest(events, m) && Longest(events, n)
    ensures m == n
  {
    if m > 0 { var i: nat, j: nat :| Fits(events, i, j) && j - i == m; }
    if n > 0 { var i: nat, j: nat :| Fits(events, i, j) && j - i == n; }
  }

  /** How many of the newest events are within the timeout of this time, counted from the newest back. */
  function RecentAt(events: seq<Event>, time: int): (n: nat)
    ensures n <= |events|
  {
    if events == [] || time - events[|events| - 1].time > FREEZE_EVENT_TIMEOUT then 0
    else RecentAt(events[..|events| - 1], time) + 1
  }

  /** How many of the newest events are within the timeout of the newest one. */
  function Recent(events: seq<Event>): (n: nat)
    ensures n <= |events|
  {
    if events == [] then 0 else RecentAt(events, events[|events| - 1].time)
  }

  lemma {:induction false} RecentAtMeans(events: seq<Event>, time: int)
    ensures var n := RecentAt(events, time);
      && (forall i :: |events| - n <= i < |events| ==> time - events[i].time <= FREEZE_EVENT_TIMEOUT)
      && (n < |events| ==> time - events[|events| - n - 1].time > FREEZE_EVENT_TIMEOUT)
  {
    if events != [] {
      var before := events[..|events| - 1];
      RecentAtMeans(before, time);
      assert forall i :: 0 <= i < |before| ==> before[i] == events[i];
    }
  }

  /** The longest run is never shorter than the recent events, and a longer one goes back beyond them. */
  lemma RecentAndLongest(events: seq<Event>, w: nat)
    requires events != [] && Monotone(events) && 0 < w <= |events| && Longest(events, w)
    ensures Longest(events, Recent(events)) <==> w == Recent(events)
    ensures events[|events| - 1].time - events[|events| - w].time <= FREEZE_EVENT_TIMEOUT <==> w == Recent(events)
  {
    var n, last := Recent(events), events[|events| - 1].time;
    RecentAtMeans(events, last);
    assert Fits(events, |events| - n, |events|);
    if n < w { assert events[|events| - w].time <= events[|events| - n - 1].time; }
    if Longest(events, n) { LongestIsUnique(events, n, w); }
  }

  /** "Everything within the timeout of the newest event": with a clock that does not run backwards the buffer is
      just that, and spans no more than the timeout, exactly if no longer run of events ever fitted into it. */
  lemma WindowIsRecentExactly(events: seq<Event>)
    requires events != [] && Monotone(events)
    ensures var n, last := Recent(events), events[|events| - 1].time;
      && Window(events) != []
      && (Window(events) == events[|events| - n..] <==> Longest(events, n))
      && (last - Window(events)[0].time <= FREEZE_EVENT_TIMEOUT <==> Longest(events, n))
  {
    WindowIsSuffix(events);
    WindowIsLongestRun(events);
    LongestSuffix(events, Window(events));
  }

  lemma LongestSuffix(events: seq<Event>, buffer: seq<Event>)
    requires events != [] && Monotone(events)
    requires buffer != [] && IsSuffix(buffer, events) && Longest(events, |buffer|)
    ensures var n, last := Recent(events), events[|events| - 1].time;
      && (buffer == events[|events| - n..] <==> Longest(events, n))
      && (last - buffer[0].time <= FREEZE_EVENT_TIMEOUT <==> Longest(events, n))
  {
    SuffixIs(buffer, events);
    SuffixStart(events, |buffer|, Recent(events));
    RecentAndLongest(events, |buffer|);
  }

  lemma SuffixStart(events: seq<Event>, w: nat, n: nat)
    requires 0 < w <= |events| && n <= |events|
    ensures events[|events| - w..][0] == events[|events| - w]
    ensures events[|events| - w..] == events[|events| - n..] <==> n == w
  {
    assert |events[|events| - n..]| == n && |events[|events| - w..]| == w;
  }

  /** An old event can stay. */
  lemma OldEventStays()
    ensures var events := [Event(0, 0), Event(1, 1), Event(2, 100)];
            Monotone(events) && Window(events) == events[1..] && events[2].time - events[1].time > FREEZE_EVENT_TIMEOUT
  {
    var events := [Event(0, 0), Event(1, 1), Event(2, 100)];
    assert events[..2][..1] == [Event(0, 0)] && events[..2][1] == Event(1, 1);
    assert [Event(0, 0)][..0] == [];
    assert Window([Event(0, 0)]) == [Event(0, 0)];
    assert Window(events[..2]) == [Event(0, 0), Event(1, 1)];
  }

  // ---- Two buffers fed alike

  /** Appending keeps one of two buffers a suffix of the other. */
  lemma AppendKeepsSuffix(u: seq<Event>, p: seq<Event>, e: Event)
    requires IsSuffix(u, p)
    ensures IsSuffix(Append(u, e), Append(p, e))
  {
    if |u| == |p| {
      SuffixIs(u, p);
      assert p[0..] == p;
    } else {
      AppendIsSuffix(u, p, e);
      SuffixOfRest(Append(u, e), p + [e]);
    }
  }

  // ---- Parts of a history

  /** `a` is `b` with some events left out. */
  predicate IsSubsequence(a: seq<Event>, b: seq<Event>)
    decreases |b|
  {
    || a == []
    || (b != []
        && (IsSubsequence(a, b[..|b| - 1])
            || (a[|a| - 1] == b[|b| - 1] && IsSubsequence(a[..|a| - 1], b[..|b| - 1]))))
  }

  lemma SubsequenceGrows(a: seq<Event>, b: seq<Event>, e: Event)
    requires IsSubsequence(a, b)
    ensures IsSubsequence(a + [e], b + [e]) && IsSubsequence(a, b + [e])
  {
    assert (a + [e])[..|a|] == a && (b + [e])[..|b|] == b;
  }

  lemma {:induction false} SubsequenceDrops(x: seq<Event>, m: Event, y: seq<Event>, b: seq<Event>)
    requires IsSubsequence(x + [m] + y, b)
    ensures IsSubsequence(x + y, b)
    decreases |b|
  {
    var a := x + [m] + y;
    if b != [] {
      var init := b[..|b| - 1];
      if IsSubsequence(a, init) {
        SubsequenceDrops(x, m, y, init);
      } else if y == [] {
        assert a[..|a| - 1] == x + y;
      } else {
        var rest := y[..|y| - 1];
        assert a[..|a| - 1] == x + [m] + rest;
        SubsequenceDrops(x, m, rest, init);
        assert (x + y)[..|x + y| - 1] == x + rest;
      }
    }
  }
}
