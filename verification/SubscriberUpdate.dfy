/** Re-subscribing: the registry does not rebuild the index but moves the record between lists by the two
    differences of the old and the new events. When this is right, and when it is not. */
module SubscriberUpdate {
  import opened Lists
  import opened Wrappers
  import opened Subscribers
  import opened SubscriberTable
  import opened SortedStrings

  function Dropped(before: seq<string>, after: seq<string>): seq<string> {
    Difference(Sort(before), Sort(after))
  }

  /** UpdateSubscriberRecordLocked. */
  function Update<R(==)>(t: Table<R>, r: R, e: Entry): Table<R> {
    var index := RemoveEvents(t.index, Dropped(Events(t, r), e.info.skills.events), r);
    t.(index := InsertEvents(index, Dropped(e.info.skills.events, Events(t, r)), r),
       entry := t.entry[r := e])
  }

  /** An event is dropped exactly when it was listed more often than it is now. */
  lemma DroppedMeans(before: seq<string>, after: seq<string>, x: string)
    ensures x in Dropped(before, after) <==> multiset(before)[x] > multiset(after)[x]
  {
    SortSorts(before);
    SortSorts(after);
    DifferenceCounts(Sort(before), Sort(after), x);
    assert x in Dropped(before, after) <==> x in multiset(Dropped(before, after));
  }

  /** No event that stays subscribed is listed fewer times than before. */
  ghost predicate KeepsCopies(before: seq<string>, after: seq<string>) {
    forall x :: x in after ==> multiset(before)[x] <= multiset(after)[x]
  }

  /** What an update does to one event's list. */
  function UpdatedList<R(==)>(list: seq<R>, r: R, before: nat, after: nat): seq<R> {
    if before > after then Erase(list, r) else if after > before then AddOnce(list, r) else list
  }

  lemma UpdateAt<R>(t: Table<R>, r: R, e: Entry, x: string)
    requires Tidy(t.index)
    ensures Lookup(Update(t, r, e).index, x) ==
              UpdatedList(Lookup(t.index, x), r, multiset(Events(t, r))[x], multiset(e.info.skills.events)[x])
  {
    var before, after := Events(t, r), e.info.skills.events;
    DroppedMeans(before, after, x);
    DroppedMeans(after, before, x);
    RemoveEventsAt(t.index, Dropped(before, after), r, x);
    InsertEventsAt(RemoveEvents(t.index, Dropped(before, after), r), Dropped(after, before), r, x);
  }

  lemma UpdateIndexedAt<R>(t: Table<R>, r: R, e: Entry, x: string, q: R)
    requires Registered(t) && Indexed(t) && r in t.subscribers
    ensures q != r ==> (q in Lookup(Update(t, r, e).index, x) <==> q in t.subscribers && x in Events(t, q))
    ensures r in Lookup(Update(t, r, e).index, x) <==>
              && multiset(e.info.skills.events)[x] > 0
              && !(x in e.info.skills.events && multiset(Events(t, r))[x] > multiset(e.info.skills.events)[x])
  {
    UpdateAt(t, r, e, x);
    EraseMembers(Lookup(t.index, x), r, q);
    EraseMembers(Lookup(t.index, x), r, r);
    assert q in Lookup(t.index, x) <==> q in t.subscribers && x in Events(t, q);
    assert r in Lookup(t.index, x) <==> x in Events(t, r);
    assert x in Events(t, r) <==> multiset(Events(t, r))[x] > 0;
  }

  lemma UpdateTidy<R>(t: Table<R>, r: R, e: Entry)
    requires Tidy(t.index)
    ensures Tidy(Update(t, r, e).index)
  {
    var before, after := Events(t, r), e.info.skills.events;
    RemoveEventsTidy(t.index, Dropped(before, after), r);
    InsertEventsTidy(RemoveEvents(t.index, Dropped(before, after), r), Dropped(after, before), r);
  }

  /** The index follows an update exactly when no event that stays is listed fewer times than before. */
  lemma UpdateIndexedExactly<R>(t: Table<R>, r: R, e: Entry)
    requires Registered(t) && Indexed(t) && r in t.subscribers
    ensures Indexed(Update(t, r, e)) <==> KeepsCopies(Events(t, r), e.info.skills.events)
  {
    var t1 := Update(t, r, e);
    var before, after := Events(t, r), e.info.skills.events;
    UpdateTidy(t, r, e);
    if KeepsCopies(before, after) {
      forall x, q | q in Lookup(t1.index, x) ensures q in t1.subscribers && x in Events(t1, q) {
        UpdateIndexedAt(t, r, e, x, q);
      }
      forall x, q | q in t1.subscribers && x in Events(t1, q) ensures q in Lookup(t1.index, x) {
        UpdateIndexedAt(t, r, e, x, q);
      }
    } else {
      var x :| x in after && multiset(before)[x] > multiset(after)[x];
      UpdateIndexedAt(t, r, e, x, r);
      assert r in t1.subscribers && x in Events(t1, r) && r !in Lookup(t1.index, x);
    }
  }

  lemma {:induction false} CountMember<R>(t: Table<R>, s: seq<R>, r: R)
    requires r in s
    ensures CountPid(t, s, PidOf(t, r)) > 0
  {
    if s[0] != r {
      CountMember(t, s[1..], r);
    }
  }

  lemma {:induction false} CountUpdate<R>(t: Table<R>, t1: Table<R>, s: seq<R>, r: R, pid: int)
    requires NoDuplicates(s) && r in s
    requires forall q :: q in s && q != r ==> PidOf(t, q) == PidOf(t1, q)
    ensures CountPid(t1, s, pid) ==
              CountPid(t, s, pid) - (if PidOf(t, r) == pid then 1 else 0) + (if PidOf(t1, r) == pid then 1 else 0)
  {
    if s[0] == r {
      assert forall q :: q in s[1..] ==> q in s && q != r;
      CountFrame(t, t1, s[1..], pid);
    } else {
      CountUpdate(t, t1, s[1..], r, pid);
    }
  }

  /** The count table follows an update exactly when the process stays the same: update does not move counts. */
  lemma UpdateCountedExactly<R>(t: Table<R>, r: R, e: Entry)
    requires Registered(t) && Counted(t) && r in t.subscribers
    ensures Counted(Update(t, r, e)) <==> e.owner.pid == PidOf(t, r)
  {
    var t1 := Update(t, r, e);
    forall pid
      ensures CountOf(t.counts, pid) == CountPid(t, t.subscribers, pid) && (pid in t.counts ==> t.counts[pid] > 0) {}
    if e.owner.pid == PidOf(t, r) {
      forall pid ensures CountOf(t1.counts, pid) == CountPid(t1, t1.subscribers, pid) {
        CountFrame(t, t1, t.subscribers, pid);
      }
    } else {
      CountUpdate(t, t1, t.subscribers, r, e.owner.pid);
      assert CountOf(t1.counts, e.owner.pid) != CountPid(t1, t1.subscribers, e.owner.pid);
    }
  }

  /** The tables agree after an update exactly under both conditions. */
  lemma UpdateExactly<R>(t: Table<R>, r: R, e: Entry)
    requires Consistent(t) && r in t.subscribers && e.listener == t.entry[r].listener
    ensures Registered(Update(t, r, e))
    ensures Consistent(Update(t, r, e)) <==>
              KeepsCopies(Events(t, r), e.info.skills.events) && e.owner.pid == PidOf(t, r)
  {
    UpdateIndexedExactly(t, r, e);
    UpdateCountedExactly(t, r, e);
    var t1 := Update(t, r, e);
    assert forall q :: q in t.subscribers ==> ListenerOf(t1, q) == ListenerOf(t, q);
  }

  /** No event is listed more often than before. */
  ghost predicate AddsNothing(before: seq<string>, after: seq<string>) {
    forall x :: x in after ==> multiset(after)[x] <= multiset(before)[x]
  }

  /** An update of a record that is no subscriber any more changes an event's list only by adding the record to it. */
  lemma UpdateGoneAt<R>(t: Table<R>, r: R, e: Entry, x: string)
    requires Indexed(t) && r !in t.subscribers
    ensures Lookup(Update(t, r, e).index, x) ==
              if multiset(e.info.skills.events)[x] > multiset(Events(t, r))[x] then Lookup(t.index, x) + [r]
              else Lookup(t.index, x)
  {
    UpdateAt(t, r, e, x);
    assert r !in Lookup(t.index, x);
    EraseAbsent(Lookup(t.index, x), r);
  }

  lemma UpdateGoneKeeps<R>(t: Table<R>, r: R, e: Entry)
    requires Registered(t) && Counted(t) && r !in t.subscribers
    ensures Registered(Update(t, r, e)) && Counted(Update(t, r, e))
  {
    var t1 := Update(t, r, e);
    assert forall q :: q in t.subscribers ==> ListenerOf(t1, q) == ListenerOf(t, q) && PidOf(t1, q) == PidOf(t, q);
    forall pid ensures CountPid(t1, t1.subscribers, pid) == CountPid(t, t.subscribers, pid) {
      CountFrame(t, t1, t.subscribers, pid);
    }
  }

  lemma UpdateGoneIndexed<R>(t: Table<R>, r: R, e: Entry)
    requires Indexed(t) && r !in t.subscribers && AddsNothing(Events(t, r), e.info.skills.events)
    ensures Indexed(Update(t, r, e))
  {
    var t1 := Update(t, r, e);
    UpdateTidy(t, r, e);
    assert forall q :: q in t.subscribers ==> Events(t1, q) == Events(t, q);
    forall x ensures Lookup(t1.index, x) == Lookup(t.index, x) {
      UpdateGoneAt(t, r, e, x);
      assert x !in e.info.skills.events ==> multiset(e.info.skills.events)[x] == 0;
    }
  }

  /** The tables agree after such an update exactly if it lists no event more often than the record did. */
  lemma UpdateGoneExactly<R>(t: Table<R>, r: R, e: Entry)
    requires Consistent(t) && r !in t.subscribers
    ensures Consistent(Update(t, r, e)) <==> AddsNothing(Events(t, r), e.info.skills.events)
  {
    UpdateGoneKeeps(t, r, e);
    if AddsNothing(Events(t, r), e.info.skills.events) {
      UpdateGoneIndexed(t, r, e);
    } else {
      var x :| x in e.info.skills.events && multiset(e.info.skills.events)[x] > multiset(Events(t, r))[x];
      UpdateGoneAdds(t, r, e, x);
    }
  }

  lemma UpdateGoneAdds<R>(t: Table<R>, r: R, e: Entry, x: string)
    requires Indexed(t) && r !in t.subscribers
    requires multiset(e.info.skills.events)[x] > multiset(Events(t, r))[x]
    ensures !Indexed(Update(t, r, e))
  {
    UpdateGoneAt(t, r, e, x);
    var list := Lookup(Update(t, r, e).index, x);
    assert list[|list| - 1] == r && r in list;
  }

  lemma DuplicateFreeKeepsCopies(before: seq<string>, after: seq<string>)
    requires NoDuplicates(before)
    ensures KeepsCopies(before, after)
  {
    forall x | x in after ensures multiset(before)[x] <= multiset(after)[x] {
      CountOnce(before, x);
      assert x in multiset(after);
    }
  }

  /** A subscriber that listed an event twice and now lists it once is lost to the index. */
  lemma LostEvent(e: string)
    ensures var info := SubscribeInfo("", 0, 0, 0, "", Skills([], [e, e], []), "", 0);
            var owner := Owner(1, 1, 0, "", false, false, false);
            var entry := Entry(7, info, owner, false, 0, 0);
            var t := Insert(Table<int>.Table([], map[], map[], map[]), 0, entry);
            var t1 := Update(t, 0, entry.(info := info.(skills := Skills([], [e], []))));
            && Consistent(t)
            && 0 in t1.subscribers && e in Events(t1, 0) && Lookup(t1.index, e) == []
  {
    var info := SubscribeInfo("", 0, 0, 0, "", Skills([], [e, e], []), "", 0);
    var owner := Owner(1, 1, 0, "", false, false, false);
    var entry := Entry(7, info, owner, false, 0, 0);
    var t0 := Table<int>.Table([], map[], map[], map[]);
    InsertKeeps(t0, 0, entry);
    var t := Insert(t0, 0, entry);
    var entry1 := entry.(info := info.(skills := Skills([], [e], [])));
    InsertEventsAt(t0.index, [e, e], 0, e);
    UpdateAt(t, 0, entry1, e);
    assert multiset([e, e])[e] == 2 && multiset([e])[e] == 1;
  }

  // ---- Update against a rebuild

  /** Deleting the record from every list it is in and inserting it again for its new events. */
  function Rebuild<R(==)>(t: Table<R>, r: R, e: Entry): map<string, seq<R>> {
    InsertEvents(RemoveEvents(t.index, Events(t, r), r), e.info.skills.events, r)
  }

  lemma {:induction false} EraseAddOnce<R>(s: seq<R>, r: R)
    requires NoDuplicates(s)
    ensures Erase(AddOnce(s, r), r) == Erase(s, r)
    ensures Erase(AddOnce(Erase(s, r), r), r) == Erase(s, r)
    ensures Erase(Erase(s, r), r) == Erase(s, r)
  {
    EraseMembers(s, r, r);
    EraseAbsent(Erase(s, r), r);
    EraseAppend(Erase(s, r), r);
    if r !in s {
      EraseAppend(s, r);
      EraseAbsent(s, r);
    }
  }

  /** For every event an update and a rebuild give the same members, and both leave all other subscribers of the
      event where they were, in the same order. */
  lemma UpdateIsRebuild<R>(t: Table<R>, r: R, e: Entry, x: string)
    requires Registered(t) && Indexed(t) && r in t.subscribers && KeepsCopies(Events(t, r), e.info.skills.events)
    ensures multiset(Lookup(Update(t, r, e).index, x)) == multiset(Lookup(Rebuild(t, r, e), x))
    ensures Erase(Lookup(Update(t, r, e).index, x), r)
              == Erase(Lookup(t.index, x), r)
              == Erase(Lookup(Rebuild(t, r, e), x), r)
  {
    var list := Lookup(t.index, x);
    UpdateAt(t, r, e, x);
    RemoveEventsAt(t.index, Events(t, r), r, x);
    RemoveEventsTidy(t.index, Events(t, r), r);
    InsertEventsAt(RemoveEvents(t.index, Events(t, r), r), e.info.skills.events, r, x);
    EraseAddOnce(list, r);
    assert r in list <==> x in Events(t, r);
    if x !in Events(t, r) { EraseAbsent(list, r); }
    SameMembers(t, r, e, x);
  }

  lemma SameMember<R>(t: Table<R>, r: R, e: Entry, x: string, q: R)
    requires Registered(t) && Indexed(t) && r in t.subscribers && KeepsCopies(Events(t, r), e.info.skills.events)
    ensures q in Lookup(Update(t, r, e).index, x) <==> q in Lookup(Rebuild(t, r, e), x)
  {
    RemoveEventsAt(t.index, Events(t, r), r, x);
    RemoveEventsTidy(t.index, Events(t, r), r);
    InsertEventsAt(RemoveEvents(t.index, Events(t, r), r), e.info.skills.events, r, x);
    UpdateIndexedAt(t, r, e, x, q);
    EraseMembers(Lookup(t.index, x), r, q);
    assert q in Lookup(t.index, x) <==> q in t.subscribers && x in Events(t, q);
  }

  lemma SameMembers<R>(t: Table<R>, r: R, e: Entry, x: string)
    requires Registered(t) && Indexed(t) && r in t.subscribers && KeepsCopies(Events(t, r), e.info.skills.events)
    ensures multiset(Lookup(Update(t, r, e).index, x)) == multiset(Lookup(Rebuild(t, r, e), x))
  {
    UpdateTidy(t, r, e);
    RemoveEventsTidy(t.index, Events(t, r), r);
    InsertEventsTidy(RemoveEvents(t.index, Events(t, r), r), e.info.skills.events, r);
    forall q ensures q in Lookup(Update(t, r, e).index, x) <==> q in Lookup(Rebuild(t, r, e), x) {
      SameMember(t, r, e, x, q);
    }
    SameElementsSameMultiset(Lookup(Update(t, r, e).index, x), Lookup(Rebuild(t, r, e), x));
  }
}
