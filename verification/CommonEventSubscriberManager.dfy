/** CommonEventSubscriberManager itself: subscriber records are heap objects that the subscriber list and the
    index share, and each method changes the tables in place. Every method is proved against the operation on
    tables it carries out. */
module CommonEventSubscriberManager {
  import opened Listeners
  import opened Lists
  import opened Wrappers
  import opened Subscribers
  import opened SubscriberTable
  import opened SubscriberUpdate
  import opened SubscriberQueries
  import opened SubscriberRegistry

  const COMMON_EVENT_SCREEN_OFF := "usual.event.SCREEN_OFF"

  class EventSubscriberRecord {
    var listener: Listener
    var info: SubscribeInfo
    var owner: Owner
    var isFreeze: bool
    var freezeTime: int
    var recordTime: int

    function Value(): Entry
      reads this
    {
      Entry(listener, info, owner, isFreeze, freezeTime, recordTime)
    }

    constructor (e: Entry)
      ensures Value() == e
    {
      listener, info, owner := e.listener, e.info, e.owner;
      isFreeze, freezeTime, recordTime := e.isFreeze, e.freezeTime, e.recordTime;
    }
  }

  ghost function HeapOf(records: set<EventSubscriberRecord>): map<EventSubscriberRecord, Entry>
    reads records
  {
    map r | r in records :: r.Value()
  }

  /** Appends a record to the list of each of the events; unlike an insertion it does not look whether the record
      is there already. */
  method PushRecord(before: map<string, seq<EventSubscriberRecord>>, events: seq<string>, r: EventSubscriberRecord)
    returns (index: map<string, seq<EventSubscriberRecord>>)
    ensures index == PushEvents(before, events, r)
  {
    index := before;
    for i := 0 to |events|
      invariant PushEvents(index, events[i..], r) == PushEvents(before, events, r)
    {
      assert events[i..][0] == events[i] && events[i..][1..] == events[i + 1..];
      index := index[events[i] := Lookup(index, events[i]) + [r]];
    }
  }

  /** The count table counts `admitted`, which has at least `n` members. */
  ghost predicate Covers(counts: map<int, nat>, admitted: multiset<int>, n: nat) {
    n <= |admitted| && forall pid :: admitted[pid] == CountOf(counts, pid)
  }

  lemma CoversMore(counts: map<int, nat>, admitted: multiset<int>, n: nat, pid: int)
    requires Covers(counts, admitted, n)
    ensures Covers(AddCount(counts, pid), admitted + multiset{pid}, n + 1)
  {
  }

  lemma CoversLess(counts: map<int, nat>, admitted: multiset<int>, n: nat, pid: int)
    requires Covers(counts, admitted, n) && n > 0
    ensures Covers(DropCount(counts, pid), admitted - multiset{pid}, n - 1)
  {
    assert pid in admitted ==> admitted == admitted - multiset{pid} + multiset{pid};
    assert pid !in admitted ==> admitted == admitted - multiset{pid};
  }

  /** Where there is a subscriber the count table has an entry, even if it is not that subscriber's. */
  lemma CoversSomeone(counts: map<int, nat>, admitted: multiset<int>, n: nat)
    requires Covers(counts, admitted, n) && n > 0
    ensures |counts| > 0
  {
    var pid := SomeMember(admitted);
    assert CountOf(counts, pid) > 0;
    assert pid in counts.Keys;
  }

  class Manager {
    var subscribers: seq<EventSubscriberRecord>
    var eventSubscribers: map<string, seq<EventSubscriberRecord>>
    var subscriberCounts: map<int, nat>
    var hasCompacted: bool
    /** Every record this manager ever made; others may still point to those it has let go. */
    ghost var records: set<EventSubscriberRecord>
    /** The processes the count table counts, once for every subscription it has counted. */
    ghost var admitted: multiset<int>

    ghost predicate Valid()
      reads this
    {
      && (forall r :: r in subscribers ==> r in records)
      && (forall e, r :: e in eventSubscribers && r in eventSubscribers[e] ==> r in records)
      && Covers(subscriberCounts, admitted, |subscribers|)
    }

    ghost function Heap(): map<EventSubscriberRecord, Entry>
      reads this, records
    {
      HeapOf(records)
    }

    ghost function Tables(): Table<EventSubscriberRecord>
      reads this, records
    {
      Table(subscribers, eventSubscribers, subscriberCounts, Heap())
    }

    constructor ()
      ensures Valid() && Tables() == Table([], map[], map[], map[]) && !hasCompacted
    {
      subscribers, eventSubscribers, subscriberCounts, hasCompacted, records := [], map[], map[], false, {};
      admitted := multiset{};
    }

    method InsertEventSubscribers(events: seq<string>, record: EventSubscriberRecord)
      requires Valid() && record in records
      modifies this`eventSubscribers
      ensures Valid()
      ensures eventSubscribers == InsertEvents(old(eventSubscribers), events, record)
    {
      for i := 0 to |events|
        invariant Valid()
        invariant InsertEvents(eventSubscribers, events[i..], record) ==
                    InsertEvents(old(eventSubscribers), events, record)
      {
        var event := events[i];
        InsertEventsFrom(eventSubscribers, events, i, record);
        if event in eventSubscribers {
          var vec := eventSubscribers[event];
          if record !in vec {
            vec := vec + [record];
          }
          eventSubscribers := eventSubscribers[event := vec];
        } else {
          eventSubscribers := eventSubscribers[event := [record]];
          assert [] + [record] == [record];
        }
      }
    }

    /** An event's list is replaced, or dropped if nothing is left of it. */
    method StoreList(event: string, vec: seq<EventSubscriberRecord>)
      requires Valid() && forall r :: r in vec ==> r in records
      modifies this`eventSubscribers
      ensures Valid() && eventSubscribers == Store(old(eventSubscribers), event, vec)
    {
      if vec == [] {
        eventSubscribers := eventSubscribers - {event};
      } else {
        eventSubscribers := eventSubscribers[event := vec];
      }
    }

    method RemoveEventSubscribers(events: seq<string>, record: EventSubscriberRecord)
      requires Valid()
      modifies this`eventSubscribers
      ensures Valid()
      ensures eventSubscribers == RemoveEvents(old(eventSubscribers), events, record)
    {
      for i := 0 to |events|
        invariant Valid()
        invariant RemoveEvents(eventSubscribers, events[i..], record) ==
                    RemoveEvents(old(eventSubscribers), events, record)
      {
        var event := events[i];
        RemoveEventsFrom(eventSubscribers, events, i, record);
        if event in eventSubscribers {
          var vec := Erase(eventSubscribers[event], record);
          EraseIsPart(eventSubscribers[event], record);
          StoreList(event, vec);
        }
      }
    }

    /** The records of a list that are not a listener's. */
    method WithoutListener(list: seq<EventSubscriberRecord>, listener: Listener)
      returns (rest: seq<EventSubscriberRecord>)
      requires forall r :: r in list ==> r in records
      ensures rest == Others(list, Heap(), listener)
      ensures forall r :: r in rest ==> r in list
    {
      rest := [];
      for i := 0 to |list|
        invariant rest + Others(list[i..], Heap(), listener) == Others(list, Heap(), listener)
        invariant forall r :: r in rest ==> r in list
      {
        OthersFrom(rest, list, i, Heap(), listener);
        if list[i].listener != listener {
          rest := rest + [list[i]];
        }
      }
      assert list[|list|..] == [];
    }

    method GetSubscriberRecord(listener: Listener) returns (record: Option<EventSubscriberRecord>)
      requires Valid()
      ensures record == Find(subscribers, Heap(), listener)
    {
      for i := 0 to |subscribers|
        invariant Find(subscribers[i..], Heap(), listener) == Find(subscribers, Heap(), listener)
      {
        assert subscribers[i..][0] == subscribers[i] && subscribers[i..][1..] == subscribers[i + 1..];
        if subscribers[i].listener == listener {
          return Some(subscribers[i]);
        }
      }
      return None;
    }

    /** Whether a new subscription is refused at the limit, and for which process. */
    method CheckLimit(limit: nat, pid: int) returns (refused: bool, ghost top: int)
      requires Valid()
      ensures refused <==> LimitReached(|subscribers|, limit) && pid == top
      ensures LimitReached(|subscribers|, limit) ==>
                exists list: seq<(int, nat)> :: IsTop(subscriberCounts, 1, list) && |list| > 0 && list[0].0 == top
    {
      refused, top := false, 0;
      if LimitReached(|subscribers|, limit) {
        CoversSomeone(subscriberCounts, admitted, |subscribers|);
        var counts := GetTopSubscriberCounts(subscriberCounts, 1);
        var killedPid := counts[0].0;
        refused, top := pid == killedPid, killedPid;
      }
    }

    /** Refused without a change when there is no record, when it lists no event, or when the limit is reached and its
        own process has the most. */
    method InsertSubscriberRecordLocked(record: EventSubscriberRecord?, limit: nat) returns (ok: bool, ghost top: int)
      requires Valid() && record !in records
      modifies this
      ensures Valid() && hasCompacted == old(hasCompacted)
      ensures ok <==> record != null && record.info.skills.events != []
                      && !(old(LimitReached(|subscribers|, limit)) && record.owner.pid == top)
      ensures record != null && record.info.skills.events != [] && old(LimitReached(|subscribers|, limit)) ==>
                exists list: seq<(int, nat)> :: IsTop(old(subscriberCounts), 1, list) && |list| > 0 && list[0].0 == top
      ensures records == if ok then old(records) + {record} else old(records)
      ensures Tables() == if ok then Insert(old(Tables()), record, record.Value()) else old(Tables())
    {
      ok, top := false, 0;
      if record == null || record.info.skills.events == [] {
        return;
      }
      var refused;
      refused, top := CheckLimit(limit, record.owner.pid);
      ok := !refused;
      if ok {
        Admit(record);
      }
    }

    method Admit(record: EventSubscriberRecord)
      requires Valid() && record !in records
      modifies this
      ensures Valid() && hasCompacted == old(hasCompacted) && records == old(records) + {record}
      ensures Tables() == Insert(old(Tables()), record, record.Value())
    {
      records := records + {record};
      InsertEventSubscribers(record.info.skills.events, record);
      CountIn(record.owner.pid);
      subscribers := subscribers + [record];
      assert Heap() == old(Heap())[record := record.Value()];
    }

    /** One more subscription of a process is counted. */
    method CountIn(pid: int)
      requires Valid()
      modifies this`subscriberCounts, this`admitted
      ensures Valid() && Covers(subscriberCounts, admitted, |subscribers| + 1)
      ensures subscriberCounts == AddCount(old(subscriberCounts), pid)
    {
      CoversMore(subscriberCounts, admitted, |subscribers|, pid);
      subscriberCounts := subscriberCounts[pid := (if pid in subscriberCounts then subscriberCounts[pid] else 0) + 1];
      admitted := admitted + multiset{pid};
    }

    method UpdateSubscriberRecordLocked(record: EventSubscriberRecord, info: SubscribeInfo, owner: Owner,
                                        recordTime: int)
      requires Valid() && record in records
      modifies this`eventSubscribers, record
      ensures Valid()
      ensures var e := old(record.Value()).(info := info, owner := owner, recordTime := recordTime);
        Tables() == Update(old(Tables()), record, e)
    {
      var oldEvents := record.info.skills.events;
      var newEvents := info.skills.events;
      RemoveEventSubscribers(Dropped(oldEvents, newEvents), record);
      record.info, record.owner, record.recordTime := info, owner, recordTime;
      InsertEventSubscribers(Dropped(newEvents, oldEvents), record);
      assert Heap() == old(Heap())[record := record.Value()];
    }

    /** `top` reports the process chosen at the limit. */
    method InsertSubscriber(info: Option<SubscribeInfo>, listener: Option<Listener>, owner: Owner, recordTime: int,
                            limit: nat)
      returns (record: Option<EventSubscriberRecord>, ghost top: int)
      requires Valid()
      modifies this, records
      ensures Valid() && hasCompacted == old(hasCompacted)
      ensures record.Some? ==>
                (Tables(), record) ==
                  Subscribe(old(Tables()), record.value, listener, info, owner, recordTime, limit, top)
      ensures record.Some? && record.value !in old(records) ==> fresh(record.value)
      ensures old(listener.Some? && Find(subscribers, Heap(), listener.value) == None) && record.Some? ==>
                record.value !in old(records)
      ensures record == None ==>
                && Tables() == old(Tables())
                && (|| info == None || listener == None
                    || |info.value.skills.events| == 0 || |info.value.skills.events| > SUBSCRIBE_EVENT_MAX_NUM
                    || (Find(subscribers, Heap(), listener.value) == None
                        && LimitReached(|subscribers|, limit) && owner.pid == top))
      ensures old(LimitReached(|subscribers|, limit))
              && old(listener.Some? && Find(subscribers, Heap(), listener.value) == None)
              && info.Some? && 0 < |info.value.skills.events| <= SUBSCRIBE_EVENT_MAX_NUM ==>
                exists list: seq<(int, nat)> :: IsTop(old(subscriberCounts), 1, list) && |list| > 0 && list[0].0 == top
    {
      record, top := None, 0;
      if info == None || listener == None {
        return;
      }
      var events := info.value.skills.events;
      if |events| == 0 || |events| > SUBSCRIBE_EVENT_MAX_NUM {
        return;
      }
      record := GetSubscriberRecord(listener.value);
      if record.Some? {
        FindSpec(subscribers, Heap(), listener.value);
        UpdateSubscriberRecordLocked(record.value, info.value, owner, recordTime);
      } else {
        var created := new EventSubscriberRecord(Entry(listener.value, info.value, owner, false, 0, recordTime));
        var ok;
        ok, top := InsertSubscriberRecordLocked(created, limit);
        if ok {
          record := Some(created);
        }
      }
    }

    method RemoveSubscriberRecordLocked(listener: Listener)
      requires Valid()
      modifies this
      ensures Valid() && hasCompacted == old(hasCompacted) && records == old(records)
      ensures Tables() == Remove(old(Tables()), listener)
    {
      var record := GetSubscriberRecord(listener);
      if record == None {
        return;
      }
      FindSpec(subscribers, Heap(), listener);
      var events := record.value.info.skills.events;
      Discharge(record.value);
      RemoveListener(events, listener);
    }

    /** A record leaves the list and the count of its process. */
    method Discharge(record: EventSubscriberRecord)
      requires Valid() && record in subscribers
      modifies this`subscribers, this`subscriberCounts, this`admitted
      ensures Valid() && subscribers == Erase(old(subscribers), record)
      ensures subscriberCounts == DropCount(old(subscriberCounts), record.owner.pid)
    {
      var pid := record.owner.pid;
      CoversLess(subscriberCounts, admitted, |subscribers|, pid);
      EraseLength(subscribers, record);
      EraseIsPart(subscribers, record);
      admitted := admitted - multiset{pid};
      if pid in subscriberCounts && subscriberCounts[pid] > 1 {
        subscriberCounts := subscriberCounts[pid := subscriberCounts[pid] - 1];
      } else {
        subscriberCounts := subscriberCounts - {pid};
      }
      subscribers := Erase(subscribers, record);
    }

    method RemoveListener(events: seq<string>, listener: Listener)
      requires Valid()
      modifies this`eventSubscribers
      ensures Valid()
      ensures eventSubscribers == DropListener(old(eventSubscribers), events, Heap(), listener)
    {
      for i := 0 to |events|
        invariant Valid()
        invariant DropListener(eventSubscribers, events[i..], Heap(), listener) ==
                    DropListener(old(eventSubscribers), events, Heap(), listener)
      {
        var event := events[i];
        DropListenerFrom(eventSubscribers, events, i, Heap(), listener);
        var vec := WithoutListener(Lookup(eventSubscribers, event), listener);
        StoreList(event, vec);
      }
      assert events[|events|..] == [];
    }

    /** The records that receive a publication; only the index entry of its action is looked at. */
    method GetSubscriberRecordsByWantLocked(p: Publication, s: Services) returns (found: seq<EventSubscriberRecord>)
      requires Valid()
      ensures found == Query(Tables(), p, s)
    {
      found := [];
      if p.want.action !in eventSubscribers {
        return;
      }
      var candidates := eventSubscribers[p.want.action];
      for i := 0 to |candidates|
        invariant found + Select(candidates[i..], Heap(), p, s) == Select(candidates, Heap(), p, s)
      {
        SelectNext(found, candidates, i, Heap(), p, s);
        if Accepts(candidates[i].Value(), p, s) {
          found := found + [candidates[i]];
        }
      }
      assert candidates[|candidates|..] == [];
    }

    /** The first screen-off event compacts the tables before it is looked up in them. */
    method GetSubscriberRecords(p: Publication, s: Services) returns (found: seq<EventSubscriberRecord>)
      requires Valid()
      modifies this
      ensures Valid() && found == Query(Tables(), p, s)
      ensures hasCompacted == old(hasCompacted || p.want.action == COMMON_EVENT_SCREEN_OFF)
      ensures hasCompacted == old(hasCompacted) ==> Tables() == old(Tables())
      ensures hasCompacted != old(hasCompacted) ==>
                exists copies :: Fresh(old(Tables()), copies) && Tables() == Compact(old(Tables()), copies)
    {
      if !hasCompacted && p.want.action == COMMON_EVENT_SCREEN_OFF {
        ghost var copies := CompactSubscriberDataStructures();
      }
      found := GetSubscriberRecordsByWantLocked(p, s);
    }

    /** The freeze state of every live subscriber of a process identity `who`. */
    method UpdateFreezeInfo(who: Owner -> bool, freezeState: bool, freezeTime: int)
      requires Valid()
      modifies records
      ensures Valid() && Tables() == SubscriberRegistry.UpdateFreezeInfo(old(Tables()), who, freezeState, freezeTime)
    {
      for i := 0 to |subscribers|
        invariant Valid()
        invariant forall r :: r in records ==>
                    var time := if freezeState then freezeTime else 0;
                    r.Value() == if r in subscribers[..i] && who(old(r.owner))
                                 then old(r.Value()).(isFreeze := freezeState, freezeTime := time)
                                 else old(r.Value())
      {
        var record := subscribers[i];
        if who(record.owner) {
          record.freezeTime := if freezeState then freezeTime else 0;
          record.isFreeze := freezeState;
        }
      }
    }

    /** A copy of a record, pushed to the lists of its events and counted. */
    static method CopyRecord(subscriber: EventSubscriberRecord, before: map<string, seq<EventSubscriberRecord>>,
                             counted: map<int, nat>)
      returns (copy: EventSubscriberRecord, index: map<string, seq<EventSubscriberRecord>>, counts: map<int, nat>)
      ensures fresh(copy) && copy.Value() == subscriber.Value()
      ensures index == PushEvents(before, copy.info.skills.events, copy)
      ensures counts == AddCount(counted, copy.owner.pid)
    {
      copy := new EventSubscriberRecord(subscriber.Value());
      index := PushRecord(before, copy.info.skills.events, copy);
      var pid := copy.owner.pid;
      counts := counted[pid := (if pid in counted then counted[pid] else 0) + 1];
    }

    /** The first `i` records have been copied into these tables; `known` are the records there are by now, and `pids`
        the processes counted. */
    ghost predicate Copied(i: nat, compacted: seq<EventSubscriberRecord>,
                           index: map<string, seq<EventSubscriberRecord>>, counts: map<int, nat>,
                           known: set<EventSubscriberRecord>, pids: multiset<int>)
      requires Valid()
      reads this, records, known
    {
      && |compacted| == i <= |subscribers| && records <= known
      && NoDuplicates(compacted) && (forall r :: r in compacted ==> r in known - records)
      && (forall e, r :: e in index && r in index[e] ==> r in known)
      && Table(compacted, index, counts, HeapOf(known)) == CompactTo(Tables(), compacted, i)
      && Covers(counts, pids, i)
    }

    /** The copy of the `i`-th record, and the tables with it. */
    method CopyNext(i: nat, compacted: seq<EventSubscriberRecord>, before: map<string, seq<EventSubscriberRecord>>,
                    counted: map<int, nat>, ghost known: set<EventSubscriberRecord>, ghost pids: multiset<int>)
      returns (longer: seq<EventSubscriberRecord>, index: map<string, seq<EventSubscriberRecord>>,
               counts: map<int, nat>, ghost known': set<EventSubscriberRecord>, ghost pids': multiset<int>)
      requires Valid() && i < |subscribers| && Copied(i, compacted, before, counted, known, pids)
      ensures Valid() && known <= known' && fresh(known' - known)
      ensures Copied(i + 1, longer, index, counts, known', pids')
    {
      ghost var c := Table(compacted, before, counted, HeapOf(known));
      var newRecord;
      newRecord, index, counts := CopyRecord(subscribers[i], before, counted);
      HeapGrows(known, newRecord);
      PushedAre(before, newRecord.info.skills.events, newRecord, known + {newRecord});
      CopyStep(Tables(), c, newRecord, i);
      NoDuplicatesAppend(compacted, newRecord);
      CoversMore(counted, pids, i, newRecord.owner.pid);
      longer := compacted + [newRecord];
      known', pids' := known + {newRecord}, pids + multiset{newRecord.owner.pid};
    }

    /** Copies of all records under new pointers, and the three tables built from the copies. */
    lemma NothingCopied()
      requires Valid()
      ensures Copied(0, [], map[], map[], records, multiset{})
    {
    }

    method CopyRecords()
      returns (compacted: seq<EventSubscriberRecord>, index: map<string, seq<EventSubscriberRecord>>,
               counts: map<int, nat>,
               ghost known: set<EventSubscriberRecord>, ghost pids: multiset<int>)
      requires Valid()
      ensures Valid() && fresh(known - records) && Copied(|subscribers|, compacted, index, counts, known, pids)
    {
      compacted, index, counts, known, pids := [], map[], map[], records, multiset{};
      NothingCopied();
      for i := 0 to |subscribers|
        invariant Valid() && fresh(known - records) && Copied(i, compacted, index, counts, known, pids)
      {
        compacted, index, counts, known, pids := CopyNext(i, compacted, index, counts, known, pids);
      }
    }

    method CompactSubscriberDataStructures() returns (ghost copies: seq<EventSubscriberRecord>)
      requires Valid()
      modifies this
      ensures Valid() && hasCompacted
      ensures Fresh(old(Tables()), copies) && forall r :: r in copies ==> fresh(r)
      ensures Tables() == Compact(old(Tables()), copies)
    {
      var compacted, index, counts;
      ghost var known, pids;
      compacted, index, counts, known, pids := CopyRecords();
      copies := compacted;
      AreFresh(Tables(), copies, known - records);
      Swap(compacted, index, counts, known, pids);
    }

    method Swap(compacted: seq<EventSubscriberRecord>, index: map<string, seq<EventSubscriberRecord>>,
                counts: map<int, nat>,
                ghost known: set<EventSubscriberRecord>, ghost pids: multiset<int>)
      requires Covers(counts, pids, |compacted|)
      requires forall r :: r in compacted ==> r in known
      requires forall e, r :: e in index && r in index[e] ==> r in known
      modifies this
      ensures Valid() && hasCompacted && records == known
      ensures Tables() == Table(compacted, index, counts, old(HeapOf(known)))
    {
      records, admitted := known, pids;
      subscribers, eventSubscribers, subscriberCounts := compacted, index, counts;
      hasCompacted := true;
    }
  }

  lemma HeapGrows(records: set<EventSubscriberRecord>, r: EventSubscriberRecord)
    ensures HeapOf(records + {r}) == HeapOf(records)[r := r.Value()]
  {
  }

  lemma AreFresh<R>(t: Table<R>, copies: seq<R>, made: set<R>)
    requires |copies| == |t.subscribers| && NoDuplicates(copies) && (forall r :: r in copies ==> r in made)
    requires t.entry.Keys !! made && forall r :: r in t.subscribers ==> r in t.entry
    ensures Fresh(t, copies)
  {
  }

  lemma NoDuplicatesAppend<R>(s: seq<R>, r: R)
    requires NoDuplicates(s) && r !in s
    ensures NoDuplicates(s + [r])
  {
  }

  lemma CopyStep<R>(t: Table<R>, c: Table<R>, r: R, n: nat)
    requires (forall q :: q in t.subscribers ==> q in t.entry) && n < |t.subscribers|
    requires |c.subscribers| == n && c == CompactTo(t, c.subscribers, n)
    ensures CopyOne(c, r, t.entry[t.subscribers[n]]) == CompactTo(t, c.subscribers + [r], n + 1)
  {
    CompactExtend(t, c.subscribers, r, n);
  }

  lemma {:induction false} PushedAre<R>(index: map<string, seq<R>>, events: seq<string>, r: R, known: set<R>)
    requires r in known && forall e, q :: e in index && q in index[e] ==> q in known
    ensures var pushed := PushEvents(index, events, r);
            forall e, q :: e in pushed && q in pushed[e] ==> q in known
    decreases |events|
  {
    if events != [] {
      var next := index[events[0] := Lookup(index, events[0]) + [r]];
      PushedAre(next, events[1..], r, known);
      assert PushEvents(index, events, r) == PushEvents(next, events[1..], r);
    }
  }

}
