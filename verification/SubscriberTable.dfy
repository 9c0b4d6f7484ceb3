/** The three tables of CommonEventSubscriberManager on values: the list of subscribers, the index from
    event to subscribers, and the number of subscribers per process. `R` is the type of a pointer to a
    subscriber record; `entry` says what each pointer points to. */
module SubscriberTable {
  import opened Lists
  import opened Listeners
  import opened Wrappers
  import opened Subscribers

  datatype Table<R(==)> = Table(
    subscribers: seq<R>,
    index: map<string, seq<R>>,
    counts: map<int, nat>,
    entry: map<R, Entry>)

  // ---- The index

  function Lookup<R>(index: map<string, seq<R>>, event: string): seq<R> {
    if event in index then index[event] else []
  }

  /** The index with one event's list replaced; an empty list is never kept. */
  function Store<R(==)>(index: map<string, seq<R>>, event: string, list: seq<R>): map<string, seq<R>> {
    if list == [] then index - {event} else index[event := list]
  }

  function AddOnce<R(==)>(list: seq<R>, r: R): seq<R> {
    if r in list then list else list + [r]
  }

  function InsertEvents<R(==)>(index: map<string, seq<R>>, events: seq<string>, r: R): map<string, seq<R>>
    decreases |events|
  {
    if events == [] then index
    else InsertEvents(index[events[0] := AddOnce(Lookup(index, events[0]), r)], events[1..], r)
  }

  function RemoveEvents<R(==)>(index: map<string, seq<R>>, events: seq<string>, r: R): map<string, seq<R>>
    decreases |events|
  {
    if events == [] then index
    else if events[0] in index then RemoveEvents(Store(index, events[0], Erase(index[events[0]], r)), events[1..], r)
    else RemoveEvents(index, events[1..], r)
  }

  lemma InsertEventsFrom<R>(index: map<string, seq<R>>, events: seq<string>, i: nat, r: R)
    requires i < |events|
    ensures InsertEvents(index, events[i..], r) ==
              InsertEvents(index[events[i] := AddOnce(Lookup(index, events[i]), r)], events[i + 1..], r)
  {
    assert events[i..][1..] == events[i + 1..];
  }

  lemma RemoveEventsFrom<R>(index: map<string, seq<R>>, events: seq<string>, i: nat, r: R)
    requires i < |events|
    ensures RemoveEvents(index, events[i..], r) ==
              RemoveEvents(if events[i] in index then Store(index, events[i], Erase(index[events[i]], r)) else index,
                           events[i + 1..], r)
  {
    assert events[i..][1..] == events[i + 1..];
  }

  /** The pointers whose records are not of this listener. */
  function Others<R(==)>(s: seq<R>, entry: map<R, Entry>, listener: Listener): seq<R> {
    if s == [] then []
    else (if s[0] in entry && entry[s[0]].listener == listener then [] else [s[0]]) + Others(s[1..], entry, listener)
  }

  function DropListener<R(==)>(index: map<string, seq<R>>, events: seq<string>, entry: map<R, Entry>,
                               listener: Listener)
    : map<string, seq<R>>
    decreases |events|
  {
    if events == [] then index
    else
      var rest := Store(index, events[0], Others(Lookup(index, events[0]), entry, listener));
      DropListener(rest, events[1..], entry, listener)
  }

  lemma OthersFrom<R>(rest: seq<R>, s: seq<R>, i: nat, entry: map<R, Entry>, listener: Listener)
    requires i < |s| && s[i] in entry
    ensures rest + Others(s[i..], entry, listener) ==
              (if entry[s[i]].listener != listener then rest + [s[i]] else rest) + Others(s[i + 1..], entry, listener)
  {
    assert s[i..][1..] == s[i + 1..];
  }

  lemma DropListenerFrom<R>(index: map<string, seq<R>>, events: seq<string>, i: nat, entry: map<R, Entry>,
                            listener: Listener)
    requires i < |events|
    ensures DropListener(index, events[i..], entry, listener) ==
              var rest := Store(index, events[i], Others(Lookup(index, events[i]), entry, listener));
              DropListener(rest, events[i + 1..], entry, listener)
  {
    assert events[i..][1..] == events[i + 1..];
  }

  ghost predicate Tidy<R>(index: map<string, seq<R>>) {
    forall e :: e in index ==> index[e] != [] && NoDuplicates(index[e])
  }

  /** An insertion appends the subscriber to the list of each of the events, unless it is there already. */
  lemma {:induction false} InsertEventsAt<R>(index: map<string, seq<R>>, events: seq<string>, r: R, x: string)
    ensures Lookup(InsertEvents(index, events, r), x) ==
              if x in events then AddOnce(Lookup(index, x), r) else Lookup(index, x)
    decreases |events|
  {
    if events != [] {
      InsertEventsAt(index[events[0] := AddOnce(Lookup(index, events[0]), r)], events[1..], r, x);
    }
  }

  lemma {:induction false} InsertEventsTidy<R>(index: map<string, seq<R>>, events: seq<string>, r: R)
    requires Tidy(index)
    ensures Tidy(InsertEvents(index, events, r))
    decreases |events|
  {
    if events != [] {
      InsertEventsTidy(index[events[0] := AddOnce(Lookup(index, events[0]), r)], events[1..], r);
    }
  }

  /** A removal erases the subscriber from the list of each of the events. */
  lemma {:induction false} RemoveEventsAt<R>(index: map<string, seq<R>>, events: seq<string>, r: R, x: string)
    requires NoDuplicates(Lookup(index, x))
    ensures Lookup(RemoveEvents(index, events, r), x) ==
              if x in events then Erase(Lookup(index, x), r) else Lookup(index, x)
    decreases |events|
  {
    if events != [] {
      if events[0] !in index {
        RemoveEventsAt(index, events[1..], r, x);
      } else {
        EraseMembers(Lookup(index, x), r, r);
        RemoveEventsAt(Store(index, events[0], Erase(index[events[0]], r)), events[1..], r, x);
        EraseAbsent(Erase(Lookup(index, x), r), r);
      }
    }
  }

  lemma {:induction false} RemoveEventsTidy<R>(index: map<string, seq<R>>, events: seq<string>, r: R)
    requires Tidy(index)
    ensures Tidy(RemoveEvents(index, events, r))
    decreases |events|
  {
    if events != [] {
      if events[0] !in index {
        RemoveEventsTidy(index, events[1..], r);
      } else {
        EraseMembers(index[events[0]], r, r);
        RemoveEventsTidy(Store(index, events[0], Erase(index[events[0]], r)), events[1..], r);
      }
    }
  }

  lemma {:induction false} OthersMembers<R>(s: seq<R>, entry: map<R, Entry>, listener: Listener, y: R)
    ensures y in Others(s, entry, listener) <==> y in s && !(y in entry && entry[y].listener == listener)
  {
    if s != [] {
      OthersMembers(s[1..], entry, listener, y);
      assert s == [s[0]] + s[1..];
    }
  }

  lemma {:induction false} OthersNoDuplicates<R>(s: seq<R>, entry: map<R, Entry>, listener: Listener)
    requires NoDuplicates(s)
    ensures NoDuplicates(Others(s, entry, listener))
  {
    if s != [] {
      OthersNoDuplicates(s[1..], entry, listener);
      OthersMembers(s[1..], entry, listener, s[0]);
    }
  }

  lemma {:induction false} OthersTwice<R>(s: seq<R>, entry: map<R, Entry>, listener: Listener)
    ensures Others(Others(s, entry, listener), entry, listener) == Others(s, entry, listener)
  {
    if s != [] {
      OthersTwice(s[1..], entry, listener);
      var rest := Others(s[1..], entry, listener);
      assert ([s[0]] + rest)[1..] == rest && [] + rest == rest;
    }
  }

  lemma {:induction false} DropListenerAt<R>(
      index: map<string, seq<R>>, events: seq<string>, entry: map<R, Entry>, listener: Listener, x: string)
    ensures Lookup(DropListener(index, events, entry, listener), x) ==
              if x in events then Others(Lookup(index, x), entry, listener) else Lookup(index, x)
    decreases |events|
  {
    if events != [] {
      OthersTwice(Lookup(index, x), entry, listener);
      var rest := Store(index, events[0], Others(Lookup(index, events[0]), entry, listener));
      DropListenerAt(rest, events[1..], entry, listener, x);
    }
  }

  lemma {:induction false} DropListenerTidy<R>(
      index: map<string, seq<R>>, events: seq<string>, entry: map<R, Entry>, listener: Listener)
    requires Tidy(index)
    ensures Tidy(DropListener(index, events, entry, listener))
    decreases |events|
  {
    if events != [] {
      OthersNoDuplicates(Lookup(index, events[0]), entry, listener);
      var rest := Store(index, events[0], Others(Lookup(index, events[0]), entry, listener));
      DropListenerTidy(rest, events[1..], entry, listener);
    }
  }

  // ---- The three tables together

  function Events<R(==)>(t: Table<R>, r: R): seq<string> {
    if r in t.entry then t.entry[r].info.skills.events else []
  }

  function PidOf<R(==)>(t: Table<R>, r: R): int {
    if r in t.entry then t.entry[r].owner.pid else 0
  }

  function ListenerOf<R(==)>(t: Table<R>, r: R): Option<Listener> {
    if r in t.entry then Some(t.entry[r].listener) else None
  }

  /** How many of these subscribers live in a process. */
  function CountPid<R(==)>(t: Table<R>, s: seq<R>, pid: int): nat {
    if s == [] then 0 else (if PidOf(t, s[0]) == pid then 1 else 0) + CountPid(t, s[1..], pid)
  }

  function CountOf(counts: map<int, nat>, pid: int): nat {
    if pid in counts then counts[pid] else 0
  }

  /** The live subscribers have records, one per listener. */
  ghost predicate Registered<R>(t: Table<R>) {
    && NoDuplicates(t.subscribers)
    && (forall r :: r in t.subscribers ==> r in t.entry)
    && (forall r, q :: r in t.subscribers && q in t.subscribers && ListenerOf(t, r) == ListenerOf(t, q) ==> r == q)
  }

  /** The index holds exactly the live subscribers of each event, each once, and no empty lists. */
  ghost predicate Indexed<R>(t: Table<R>) {
    && Tidy(t.index)
    && (forall e, r :: r in Lookup(t.index, e) ==> r in t.subscribers && e in Events(t, r))
    && (forall e, r :: r in t.subscribers && e in Events(t, r) ==> r in Lookup(t.index, e))
  }

  /** The count table holds exactly the processes with live subscribers, and how many each has. */
  ghost predicate Counted<R>(t: Table<R>) {
    forall pid :: CountOf(t.counts, pid) == CountPid(t, t.subscribers, pid) && (pid in t.counts ==> t.counts[pid] > 0)
  }

  ghost predicate Consistent<R>(t: Table<R>) {
    Registered(t) && Indexed(t) && Counted(t)
  }

  function AddCount(counts: map<int, nat>, pid: int): map<int, nat> {
    counts[pid := CountOf(counts, pid) + 1]
  }

  function DropCount(counts: map<int, nat>, pid: int): map<int, nat> {
    if CountOf(counts, pid) > 1 then counts[pid := counts[pid] - 1] else counts - {pid}
  }

  /** The pointer GetSubscriberRecord finds for a listener. */
  function Find<R(==)>(s: seq<R>, entry: map<R, Entry>, listener: Listener): Option<R> {
    if s == [] then None
    else if s[0] in entry && entry[s[0]].listener == listener then Some(s[0])
    else Find(s[1..], entry, listener)
  }

  lemma {:induction false} FindSpec<R>(s: seq<R>, entry: map<R, Entry>, listener: Listener)
    ensures match Find(s, entry, listener)
            case Some(r) => r in s && r in entry && entry[r].listener == listener
            case None => forall r :: r in s && r in entry ==> entry[r].listener != listener
  {
    if s != [] {
      FindSpec(s[1..], entry, listener);
      assert s == [s[0]] + s[1..];
    }
  }

  // ---- Insertion and removal

  /** InsertSubscriberRecordLocked, once the insertion is accepted. */
  function Insert<R(==)>(t: Table<R>, r: R, e: Entry): Table<R> {
    Table(t.subscribers + [r], InsertEvents(t.index, e.info.skills.events, r),
          AddCount(t.counts, e.owner.pid), t.entry[r := e])
  }

  /** RemoveSubscriberRecordLocked. The removed record lives on for those that still point to it. */
  function Remove<R(==)>(t: Table<R>, listener: Listener): Table<R> {
    match Find(t.subscribers, t.entry, listener)
    case None => t
    case Some(r) =>
      t.(subscribers := Erase(t.subscribers, r),
         index := DropListener(t.index, Events(t, r), t.entry, listener),
         counts := DropCount(t.counts, PidOf(t, r)))
  }

  lemma {:induction false} CountAppend<R>(t: Table<R>, s: seq<R>, r: R, pid: int)
    ensures CountPid(t, s + [r], pid) == CountPid(t, s, pid) + (if PidOf(t, r) == pid then 1 else 0)
  {
    if s != [] {
      CountAppend(t, s[1..], r, pid);
      assert (s + [r])[1..] == s[1..] + [r];
    }
  }

  lemma {:induction false} CountErase<R>(t: Table<R>, s: seq<R>, r: R, pid: int)
    requires r in s
    ensures CountPid(t, Erase(s, r), pid) == CountPid(t, s, pid) - (if PidOf(t, r) == pid then 1 else 0)
  {
    if s[0] != r {
      CountErase(t, s[1..], r, pid);
    }
  }

  lemma {:induction false} CountFrame<R>(t: Table<R>, t1: Table<R>, s: seq<R>, pid: int)
    requires forall r :: r in s ==> PidOf(t, r) == PidOf(t1, r)
    ensures CountPid(t, s, pid) == CountPid(t1, s, pid)
  {
    if s != [] {
      CountFrame(t, t1, s[1..], pid);
    }
  }

  lemma InsertRegistered<R>(t: Table<R>, r: R, e: Entry)
    requires Registered(t) && r !in t.subscribers
    requires Find(t.subscribers, t.entry, e.listener) == None
    ensures Registered(Insert(t, r, e))
  {
    var t1 := Insert(t, r, e);
    FindSpec(t.subscribers, t.entry, e.listener);
    assert forall q :: q in t1.subscribers <==> q == r || q in t.subscribers;
    assert forall q :: q in t.subscribers ==> ListenerOf(t1, q) == ListenerOf(t, q) != Some(e.listener);
  }

  lemma InsertIndexed<R>(t: Table<R>, r: R, e: Entry)
    requires Indexed(t) && r !in t.subscribers
    ensures Indexed(Insert(t, r, e))
  {
    var t1 := Insert(t, r, e);
    InsertEventsTidy(t.index, e.info.skills.events, r);
    forall x, q | q in Lookup(t1.index, x) ensures q in t1.subscribers && x in Events(t1, q) {
      InsertEventsAt(t.index, e.info.skills.events, r, x);
      if q in Lookup(t.index, x) {
        assert q in t.subscribers && x in Events(t, q);
      }
    }
    forall x, q | q in t1.subscribers && x in Events(t1, q) ensures q in Lookup(t1.index, x) {
      InsertEventsAt(t.index, e.info.skills.events, r, x);
      if q != r {
        assert q in t.subscribers && x in Events(t, q);
      }
    }
  }

  lemma InsertCounted<R>(t: Table<R>, r: R, e: Entry)
    requires Counted(t) && r !in t.subscribers
    ensures Counted(Insert(t, r, e))
  {
    var t1 := Insert(t, r, e);
    forall pid ensures CountOf(t1.counts, pid) == CountPid(t1, t1.subscribers, pid) {
      assert CountOf(t.counts, pid) == CountPid(t, t.subscribers, pid);
      CountAppend(t1, t.subscribers, r, pid);
      CountFrame(t, t1, t.subscribers, pid);
    }
  }

  /** A new listener's subscription keeps the three tables in agreement. */
  lemma InsertKeeps<R>(t: Table<R>, r: R, e: Entry)
    requires Consistent(t) && r !in t.subscribers
    requires Find(t.subscribers, t.entry, e.listener) == None
    ensures Consistent(Insert(t, r, e))
  {
    InsertRegistered(t, r, e);
    InsertIndexed(t, r, e);
    InsertCounted(t, r, e);
  }

  lemma RemoveIndexedAt<R>(t: Table<R>, listener: Listener, r: R, x: string, q: R)
    requires Registered(t) && Indexed(t) && Find(t.subscribers, t.entry, listener) == Some(r)
    ensures var t1 := Remove(t, listener);
            q in Lookup(t1.index, x) <==> q in t1.subscribers && x in Events(t1, q)
  {
    FindSpec(t.subscribers, t.entry, listener);
    EraseMembers(t.subscribers, r, q);
    DropListenerAt(t.index, Events(t, r), t.entry, listener, x);
    OthersMembers(Lookup(t.index, x), t.entry, listener, q);
    assert ListenerOf(t, q) == ListenerOf(t, r) && q in t.subscribers ==> q == r;
    assert q in Lookup(t.index, x) <==> q in t.subscribers && x in Events(t, q);
  }

  lemma RemoveIndexed<R>(t: Table<R>, listener: Listener, r: R)
    requires Registered(t) && Indexed(t) && Find(t.subscribers, t.entry, listener) == Some(r)
    ensures Indexed(Remove(t, listener))
  {
    var t1 := Remove(t, listener);
    DropListenerTidy(t.index, Events(t, r), t.entry, listener);
    forall x, q | q in Lookup(t1.index, x) ensures q in t1.subscribers && x in Events(t1, q) {
      RemoveIndexedAt(t, listener, r, x, q);
    }
    forall x, q | q in t1.subscribers && x in Events(t1, q) ensures q in Lookup(t1.index, x) {
      RemoveIndexedAt(t, listener, r, x, q);
    }
  }

  lemma RemoveRegistered<R>(t: Table<R>, listener: Listener, r: R)
    requires Registered(t) && Find(t.subscribers, t.entry, listener) == Some(r)
    ensures Registered(Remove(t, listener))
  {
    var t1 := Remove(t, listener);
    EraseMembers(t.subscribers, r, r);
    EraseIsPart(t.subscribers, r);
    assert forall q :: q in t1.subscribers ==> q in t.subscribers;
    assert forall q :: ListenerOf(t1, q) == ListenerOf(t, q);
  }

  lemma RemoveForgets<R>(t: Table<R>, listener: Listener, r: R)
    requires Registered(t) && Find(t.subscribers, t.entry, listener) == Some(r)
    ensures Find(Remove(t, listener).subscribers, t.entry, listener) == None
  {
    var t1 := Remove(t, listener);
    FindSpec(t.subscribers, t.entry, listener);
    FindSpec(t1.subscribers, t.entry, listener);
    forall q | q in t1.subscribers ensures q in t.entry && t.entry[q].listener != listener {
      EraseMembers(t.subscribers, r, q);
      assert ListenerOf(t, q) != ListenerOf(t, r);
    }
  }

  lemma RemoveCounted<R>(t: Table<R>, listener: Listener, r: R)
    requires Counted(t) && Find(t.subscribers, t.entry, listener) == Some(r)
    ensures Counted(Remove(t, listener))
  {
    var t1 := Remove(t, listener);
    FindSpec(t.subscribers, t.entry, listener);
    forall pid ensures CountOf(t1.counts, pid) == CountPid(t1, t1.subscribers, pid) {
      assert CountOf(t.counts, pid) == CountPid(t, t.subscribers, pid);
      CountErase(t, t.subscribers, r, pid);
      CountFrame(t, t1, t1.subscribers, pid);
    }
  }

  /** Unsubscribing keeps the three tables in agreement and leaves no trace of the listener. */
  lemma RemoveKeeps<R>(t: Table<R>, listener: Listener)
    requires Consistent(t)
    ensures Consistent(Remove(t, listener))
    ensures Find(Remove(t, listener).subscribers, t.entry, listener) == None
  {
    match Find(t.subscribers, t.entry, listener)
    case None =>
    case Some(r) =>
      RemoveIndexed(t, listener, r);
      RemoveRegistered(t, listener, r);
      RemoveForgets(t, listener, r);
      RemoveCounted(t, listener, r);
  }
}
