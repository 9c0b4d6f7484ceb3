/** Finding the receivers of an event: the service looks only at the index entry of the event's action, and
    compaction replaces every record under its feet. Neither may show. */
module SubscriberQueries {
  import opened Lists
  import opened Wrappers
  import opened Subscribers
  import opened SubscriberTable
  import opened SubscriberFilter

  const SUBSCRIBE_USER_SYSTEM_BEGIN := 0
  const SUBSCRIBE_USER_SYSTEM_END := 99

  datatype Want = Want(action: string, entities: seq<string>, scheme: string)

  datatype PermissionRule = NoRule | AllOf | AnyOf

  datatype EventPermission = EventPermission(names: seq<string>, rule: PermissionRule)

  /** What the other services answer: token checks, the permission table, and bundle versions. */
  datatype Services = Services(
    verify: (int, string) -> bool,
    systemApi: string -> bool,
    permission: string -> EventPermission,
    version: int -> Option<int>)

  datatype Publication = Publication(want: Want, userId: int, owner: Owner, info: PublishInfo)

  // ---- MatchingSkills

  predicate MatchEvent(s: Skills, action: string) {
    action != "" && action in s.events
  }

  predicate MatchEntity(s: Skills, entities: seq<string>) {
    forall e :: e in entities ==> e in s.entities
  }

  predicate MatchScheme(s: Skills, scheme: string) {
    if s.schemes != [] then scheme in s.schemes else scheme == ""
  }

  predicate Match(s: Skills, want: Want) {
    MatchEvent(s, want.action) && MatchEntity(s, want.entities) && MatchScheme(s, want.scheme)
  }

  // ---- The other checks

  predicate CheckSubscriberByUserId(subscriberUserId: int, isSystemApp: bool, userId: int) {
    || subscriberUserId == ALL_USER
    || subscriberUserId == userId
    || (isSystemApp
        && (userId == UNDEFINED_USER || userId == ALL_USER
            || SUBSCRIBE_USER_SYSTEM_BEGIN <= subscriberUserId <= SUBSCRIBE_USER_SYSTEM_END))
  }

  predicate CheckSubscriberPermission(e: Entry, p: Publication, s: Services) {
    if s.systemApi(p.want.action) && !(e.owner.isSubsystem || e.owner.isSystemApp) then false
    else if e.owner.uid == p.owner.uid then true
    else
      var permission := s.permission(p.want.action);
      if permission.names == [] then true
      else if |permission.names| == 1 then s.verify(e.owner.callerToken, permission.names[0])
      else
        match permission.rule
        case AllOf => forall name :: name in permission.names ==> s.verify(e.owner.callerToken, name)
        case AnyOf => exists name :: name in permission.names && s.verify(e.owner.callerToken, name)
        case NoRule => false
  }

  predicate CheckWhetherIsAppIndexSubscribed(e: Entry, p: Publication) {
    !(p.owner.bundleName != "" && e.owner.bundleName == p.owner.bundleName && e.owner.uid != p.owner.uid)
  }

  predicate CheckPublisherWhetherMatched(e: Entry, p: Publication, s: Services) {
    && (e.info.publisherBundleName == "" || e.info.publisherBundleName == p.owner.bundleName)
    && !(e.info.publisherUid > 0 && p.owner.uid > 0 && e.info.publisherUid != p.owner.uid)
    && (e.owner.uid == p.owner.uid || e.info.permission == "" || s.verify(p.owner.callerToken, e.info.permission))
  }

  /** The subscriber as the publisher's filter sees it. */
  function SubjectOf(e: Entry, p: Publication, s: Services): Subject {
    Subject(e.owner.bundleName, e.owner.uid, e.owner.isSystemApp || e.owner.isSubsystem, s.version(e.owner.uid),
            names => e.owner.uid == p.owner.uid || forall name :: name in names ==> s.verify(e.owner.callerToken, name))
  }

  /** All the checks one candidate goes through. */
  predicate Accepts(e: Entry, p: Publication, s: Services) {
    && Match(e.info.skills, p.want)
    && CheckSubscriberByUserId(e.info.userId, (p.owner.isSystemApp || p.owner.isSubsystem) && !p.owner.isProxy,
                               p.userId)
    && CheckSubscriberPermission(e, p, s)
    && CheckWhetherIsAppIndexSubscribed(e, p)
    && CheckPublisherWhetherMatched(e, p, s)
    && DynamicMatched(p.info, SubjectOf(e, p, s))
  }

  // ---- Query and scan

  /** The pointers whose records pass the checks, in order. */
  function Select<R(==)>(s: seq<R>, entry: map<R, Entry>, p: Publication, services: Services): seq<R> {
    if s == [] then []
    else
      (if s[0] in entry && Accepts(entry[s[0]], p, services) then [s[0]] else [])
      + Select(s[1..], entry, p, services)
  }

  /** GetSubscriberRecordsByWantLocked. */
  function Query<R(==)>(t: Table<R>, p: Publication, s: Services): seq<R> {
    Select(Lookup(t.index, p.want.action), t.entry, p, s)
  }

  lemma {:induction false} SelectMembers<R>(s: seq<R>, entry: map<R, Entry>, p: Publication, services: Services, r: R)
    ensures r in Select(s, entry, p, services) <==> r in s && r in entry && Accepts(entry[r], p, services)
    ensures NoDuplicates(s) ==> NoDuplicates(Select(s, entry, p, services))
  {
    if s != [] {
      SelectMembers(s[1..], entry, p, services, r);
      SelectMembers(s[1..], entry, p, services, s[0]);
      assert s == [s[0]] + s[1..];
    }
  }

  lemma SelectNext<R>(found: seq<R>, s: seq<R>, i: nat, entry: map<R, Entry>, p: Publication, services: Services)
    requires i < |s| && s[i] in entry
    ensures found + Select(s[i..], entry, p, services) ==
              (if Accepts(entry[s[i]], p, services) then found + [s[i]] else found)
              + Select(s[i + 1..], entry, p, services)
  {
    assert s[i..][0] == s[i] && s[i..][1..] == s[i + 1..];
  }

  /** Looking only at the index entry of the action finds exactly the subscribers a scan of all of them would. */
  lemma QueryIsScan<R>(t: Table<R>, p: Publication, s: Services)
    requires Registered(t) && Indexed(t)
    ensures multiset(Query(t, p, s)) == multiset(Select(t.subscribers, t.entry, p, s))
    ensures NoDuplicates(Query(t, p, s))
  {
    var found, scanned := Query(t, p, s), Select(t.subscribers, t.entry, p, s);
    forall r ensures r in found <==> r in scanned {
      FoundIsScanned(t, p, s, r);
    }
    SelectOnce(Lookup(t.index, p.want.action), t.entry, p, s);
    SelectOnce(t.subscribers, t.entry, p, s);
    SameElementsSameMultiset(found, scanned);
  }

  lemma FoundIsScanned<R>(t: Table<R>, p: Publication, s: Services, r: R)
    requires Registered(t) && Indexed(t)
    ensures r in Query(t, p, s) <==> r in Select(t.subscribers, t.entry, p, s)
  {
    SelectMembers(Lookup(t.index, p.want.action), t.entry, p, s, r);
    SelectMembers(t.subscribers, t.entry, p, s, r);
    if r in Select(t.subscribers, t.entry, p, s) { assert p.want.action in Events(t, r); }
  }

  lemma SelectOnce<R>(list: seq<R>, entry: map<R, Entry>, p: Publication, s: Services)
    requires NoDuplicates(list)
    ensures NoDuplicates(Select(list, entry, p, s))
  {
    if list != [] { SelectMembers(list, entry, p, s, list[0]); }
  }

  /** Whom a publication may not reach: an ordinary publisher reaches no other user's subscribers; nobody reaches a
      clone of his own application under another user id; a subscriber that asks for a bundle hears no other; and one
      that asks for a permission hears only those who hold it, and itself. */
  lemma QueryRespectsBoundaries<R>(t: Table<R>, p: Publication, s: Services, r: R)
    requires Registered(t) && Indexed(t) && r in Query(t, p, s)
    ensures r in t.subscribers && p.want.action in Events(t, r)
    ensures var e := t.entry[r];
            && (!(p.owner.isSystemApp || p.owner.isSubsystem) || p.owner.isProxy ==>
                  e.info.userId == ALL_USER || e.info.userId == p.userId)
            && (p.owner.bundleName != "" && e.owner.bundleName == p.owner.bundleName ==> e.owner.uid == p.owner.uid)
            && (e.info.publisherBundleName != "" ==> e.info.publisherBundleName == p.owner.bundleName)
            && (e.info.permission != "" ==>
                  e.owner.uid == p.owner.uid || s.verify(p.owner.callerToken, e.info.permission))
            && (s.systemApi(p.want.action) ==> e.owner.isSubsystem || e.owner.isSystemApp)
            && Intended(p.info, SubjectOf(e, p, s))
  {
    SelectMembers(Lookup(t.index, p.want.action), t.entry, p, s, r);
    DynamicMatchedMeans(p.info, SubjectOf(t.entry[r], p, s));
  }

  // ---- Compaction

  function PushEvents<R(==)>(index: map<string, seq<R>>, events: seq<string>, r: R): map<string, seq<R>>
    decreases |events|
  {
    if events == [] then index
    else PushEvents(index[events[0] := Lookup(index, events[0]) + [r]], events[1..], r)
  }

  /** One round of CompactSubscriberDataStructures: a copy of the record under a new pointer. */
  function CopyOne<R(==)>(c: Table<R>, r: R, e: Entry): Table<R> {
    Table(c.subscribers + [r], PushEvents(c.index, e.info.skills.events, r), AddCount(c.counts, e.owner.pid),
          c.entry[r := e])
  }

  /** The new pointers are new: none is known, and no two are the same. */
  ghost predicate Fresh<R>(t: Table<R>, copies: seq<R>) {
    && |copies| == |t.subscribers|
    && NoDuplicates(copies)
    && (forall i :: 0 <= i < |copies| ==> copies[i] !in t.entry && copies[i] !in t.subscribers)
  }

  /** The tables after the first `n` subscribers are copied. */
  function CompactTo<R(==)>(t: Table<R>, copies: seq<R>, n: nat): Table<R>
    requires n <= |copies| <= |t.subscribers| && forall r :: r in t.subscribers ==> r in t.entry
  {
    if n == 0 then Table([], map[], map[], t.entry)
    else CopyOne(CompactTo(t, copies, n - 1), copies[n - 1], t.entry[t.subscribers[n - 1]])
  }

  function Compact<R(==)>(t: Table<R>, copies: seq<R>): Table<R>
    requires |copies| == |t.subscribers| && forall r :: r in t.subscribers ==> r in t.entry
  {
    CompactTo(t, copies, |t.subscribers|)
  }

  lemma {:induction false} CompactExtend<R>(t: Table<R>, copies: seq<R>, r: R, n: nat)
    requires n <= |copies| < |t.subscribers| && forall q :: q in t.subscribers ==> q in t.entry
    ensures CompactTo(t, copies + [r], n) == CompactTo(t, copies, n)
  {
    if n > 0 {
      CompactExtend(t, copies, r, n - 1);
    }
  }

  /** No live subscriber lists an event twice. */
  ghost predicate DuplicateFree<R>(t: Table<R>) {
    forall r :: r in t.subscribers ==> NoDuplicates(Events(t, r))
  }

  /** The records are the old ones and, under the first `n` new pointers, those of the first `n` subscribers. */
  ghost predicate CopiedEntries<R>(t: Table<R>, copies: seq<R>, n: nat, entry: map<R, Entry>)
    requires n <= |copies| == |t.subscribers| && forall r :: r in t.subscribers ==> r in t.entry
  {
    && (forall i :: 0 <= i < n ==> copies[i] in entry && entry[copies[i]] == t.entry[t.subscribers[i]])
    && (forall i :: n <= i < |copies| ==> copies[i] !in entry)
    && (forall r :: r in t.entry ==> r in entry && entry[r] == t.entry[r])
  }

  lemma CopyNext<R>(t: Table<R>, copies: seq<R>, n: nat, entry: map<R, Entry>)
    requires n < |copies| == |t.subscribers| && NoDuplicates(copies)
    requires forall r :: r in t.subscribers ==> r in t.entry
    requires forall i :: 0 <= i < |copies| ==> copies[i] !in t.entry
    requires CopiedEntries(t, copies, n, entry)
    ensures CopiedEntries(t, copies, n + 1, entry[copies[n] := t.entry[t.subscribers[n]]])
  {
  }

  lemma {:induction false} CopiedList<R>(t: Table<R>, copies: seq<R>, n: nat)
    requires n <= |copies| <= |t.subscribers| && forall r :: r in t.subscribers ==> r in t.entry
    ensures CompactTo(t, copies, n).subscribers == copies[..n]
  {
    if n > 0 {
      CopiedList(t, copies, n - 1);
    }
  }

  lemma {:induction false} EntriesSoFar<R>(t: Table<R>, copies: seq<R>, n: nat)
    requires n <= |copies| == |t.subscribers| && NoDuplicates(copies)
    requires forall r :: r in t.subscribers ==> r in t.entry
    requires forall i :: 0 <= i < |copies| ==> copies[i] !in t.entry
    ensures CopiedEntries(t, copies, n, CompactTo(t, copies, n).entry)
  {
    if n > 0 {
      EntriesSoFar(t, copies, n - 1);
      CopyNext(t, copies, n - 1, CompactTo(t, copies, n - 1).entry);
    }
  }

  lemma CopiedSoFar<R>(t: Table<R>, copies: seq<R>, n: nat)
    requires Registered(t) && Fresh(t, copies) && n <= |copies|
    ensures CompactTo(t, copies, n).subscribers == copies[..n]
    ensures CopiedEntries(t, copies, n, CompactTo(t, copies, n).entry)
  {
    CopiedList(t, copies, n);
    EntriesSoFar(t, copies, n);
  }

  lemma {:induction false} PushEventsAt<R>(index: map<string, seq<R>>, events: seq<string>, r: R, x: string, q: R)
    ensures multiset(Lookup(PushEvents(index, events, r), x))[q] ==
              multiset(Lookup(index, x))[q] + (if q == r then multiset(events)[x] else 0)
    decreases |events|
  {
    if events != [] {
      PushEventsAt(index[events[0] := Lookup(index, events[0]) + [r]], events[1..], r, x, q);
      assert events == [events[0]] + events[1..];
    }
  }

  /** After compaction a subscriber is in an event's list once for every time it listed the event. */
  lemma {:induction false} CompactCopies<R>(t: Table<R>, copies: seq<R>, n: nat, i: nat, x: string)
    requires Registered(t) && Fresh(t, copies) && i < |copies| && n <= |copies|
    ensures multiset(Lookup(CompactTo(t, copies, n).index, x))[copies[i]] ==
              if i < n then multiset(Events(t, t.subscribers[i]))[x] else 0
  {
    if n > 0 {
      var c, events := CompactTo(t, copies, n - 1), Events(t, t.subscribers[n - 1]);
      CompactCopies(t, copies, n - 1, i, x);
      PushEventsAt(c.index, events, copies[n - 1], x, copies[i]);
      assert CompactTo(t, copies, n).index == PushEvents(c.index, events, copies[n - 1]);
      assert copies[i] == copies[n - 1] <==> i == n - 1;
    }
  }

  lemma {:induction false} PushIsInsert<R>(index: map<string, seq<R>>, events: seq<string>, r: R)
    requires NoDuplicates(events) && forall x :: x in events ==> r !in Lookup(index, x)
    ensures PushEvents(index, events, r) == InsertEvents(index, events, r)
    decreases |events|
  {
    if events != [] {
      var next := index[events[0] := Lookup(index, events[0]) + [r]];
      forall x | x in events[1..] ensures r !in Lookup(next, x) {
        assert x in events && x != events[0];
      }
      PushIsInsert(next, events[1..], r);
    }
  }

  lemma NotYetCopied<R>(t: Table<R>, copies: seq<R>, n: nat)
    requires Registered(t) && Fresh(t, copies) && n < |copies|
    ensures var c := CompactTo(t, copies, n);
            Find(c.subscribers, c.entry, t.entry[t.subscribers[n]].listener) == None
  {
    var c := CompactTo(t, copies, n);
    CopiedSoFar(t, copies, n);
    var listener := t.entry[t.subscribers[n]].listener;
    forall q | q in c.subscribers ensures q in c.entry && c.entry[q].listener != listener {
      var i :| 0 <= i < n && copies[i] == q;
      assert t.subscribers[i] in t.subscribers && t.subscribers[n] in t.subscribers;
      assert t.subscribers[i] != t.subscribers[n];
      assert ListenerOf(t, t.subscribers[i]) != ListenerOf(t, t.subscribers[n]);
    }
    FindSpec(c.subscribers, c.entry, listener);
  }

  /** Without duplicate events, copying is inserting. */
  lemma CopyKeeps<R>(t: Table<R>, copies: seq<R>, n: nat)
    requires Registered(t) && Fresh(t, copies) && n < |copies| && DuplicateFree(t)
    requires Consistent(CompactTo(t, copies, n))
    ensures Consistent(CompactTo(t, copies, n + 1))
  {
    var c := CompactTo(t, copies, n);
    var r, e := copies[n], t.entry[t.subscribers[n]];
    CopiedSoFar(t, copies, n);
    assert NoDuplicates(Events(t, t.subscribers[n]));
    assert r !in c.subscribers;
    assert forall x :: r !in Lookup(c.index, x);
    PushIsInsert(c.index, e.info.skills.events, r);
    NotYetCopied(t, copies, n);
    InsertKeeps(c, r, e);
  }

  lemma {:induction false} CompactKeeps<R>(t: Table<R>, copies: seq<R>, n: nat)
    requires Registered(t) && Fresh(t, copies) && n <= |copies| && DuplicateFree(t)
    ensures Consistent(CompactTo(t, copies, n))
  {
    if n > 0 {
      CompactKeeps(t, copies, n - 1);
      CopyKeeps(t, copies, n - 1);
    }
  }

  /** The tables agree after compaction exactly when no live subscriber lists an event twice. */
  lemma CompactExactly<R>(t: Table<R>, copies: seq<R>)
    requires Registered(t) && Fresh(t, copies)
    ensures Consistent(Compact(t, copies)) <==> DuplicateFree(t)
  {
    var c := Compact(t, copies);
    if DuplicateFree(t) {
      CompactKeeps(t, copies, |copies|);
    } else if Consistent(c) {
      var r :| r in t.subscribers && !NoDuplicates(Events(t, r));
      var i :| 0 <= i < |t.subscribers| && t.subscribers[i] == r;
      var x := Repeated(Events(t, r));
      CompactCopies(t, copies, |copies|, i, x);
      CountOnce(Lookup(c.index, x), copies[i]);
      assert false;
    }
  }

  lemma {:induction false} SelectCount<R>(list: seq<R>, entry: map<R, Entry>, p: Publication, s: Services, r: R)
    ensures multiset(Select(list, entry, p, s))[r] ==
              if r in entry && Accepts(entry[r], p, s) then multiset(list)[r] else 0
  {
    if list != [] {
      SelectCount(list[1..], entry, p, s, r);
      assert list == [list[0]] + list[1..];
    }
  }

  /** After compaction a subscriber that a publication reaches is sent it once for every time it listed the event. */
  lemma CompactedReceives<R>(t: Table<R>, copies: seq<R>, p: Publication, s: Services, i: nat)
    requires Registered(t) && Fresh(t, copies) && i < |copies|
    ensures var e := t.entry[t.subscribers[i]];
      multiset(Query(Compact(t, copies), p, s))[copies[i]] ==
        if Accepts(e, p, s) then multiset(e.info.skills.events)[p.want.action] else 0
  {
    var c := Compact(t, copies);
    CopiedSoFar(t, copies, |copies|);
    CompactCopies(t, copies, |copies|, i, p.want.action);
    SelectCount(Lookup(c.index, p.want.action), c.entry, p, s, copies[i]);
  }

  const NOBODY: Table<nat> := Table([], map[], map[], map[])

  /** One subscriber that lists an event twice is found once before compaction, and twice after. */
  lemma FoundTwice() returns (t: Table<nat>, p: Publication, s: Services)
    ensures Consistent(t) && Fresh(t, [1])
    ensures Query(t, p, s) == [0]
    ensures multiset(Query(Compact(t, [1]), p, s))[1] == 2
  {
    var owner := Owner(5, 5, 0, "", false, false, false);
    var e := Entry(7, SubscribeInfo("", 0, ALL_USER, 0, "", Skills([], ["a", "a"], []), "", 0), owner, false, 0, 0);
    var info := PublishInfo([], false, false, "", [], UNINITIALIZED_SUBSCRIBER_TYPE, AND, DEFAULT_VERSION);
    p := Publication(Want("a", [], ""), 0, owner, info);
    s := Services((_, _) => true, _ => false, _ => EventPermission([], NoRule), _ => None);
    Unfiltered(e, p, s);
    t := Insert(NOBODY, 0, e);
    assert multiset(["a", "a"])["a"] == 2;
    AloneFoundTwice(e, p, s);
  }

  lemma Unfiltered(e: Entry, p: Publication, s: Services)
    requires Match(e.info.skills, p.want) && e.info.userId == ALL_USER && e.owner == p.owner && p.owner.bundleName == ""
    requires e.info.publisherBundleName == "" && e.info.publisherUid == 0 && !s.systemApi(p.want.action)
    requires forall c :: !Requested(p.info, c)
    ensures Accepts(e, p, s)
  {
    DynamicMatchedMeans(p.info, SubjectOf(e, p, s));
  }

  /** The tables with one subscriber in them. */
  lemma AloneRegistered(e: Entry)
    ensures var t := Insert(NOBODY, 0, e);
      && t.subscribers == [0] && t.entry == map[0 := e] && t.index == InsertEvents<nat>(map[], e.info.skills.events, 0)
      && Consistent(t)
  {
    assert Consistent(NOBODY);
    InsertKeeps(NOBODY, 0, e);
    assert Insert(NOBODY, 0, e).subscribers == [0];
    assert Insert(NOBODY, 0, e).entry == map[0 := e];
  }

  lemma AloneListed(events: seq<string>, x: string)
    requires x in events
    ensures Lookup(InsertEvents<nat>(map[], events, 0), x) == [0]
  {
    InsertEventsAt<nat>(map[], events, 0, x);
    assert AddOnce<nat>([], 0) == [0];
  }

  lemma Alone(e: Entry, p: Publication, s: Services)
    requires p.want.action in e.info.skills.events && Accepts(e, p, s)
    ensures var t := Insert(NOBODY, 0, e); Consistent(t) && Query(t, p, s) == [0]
    ensures var t := Insert(NOBODY, 0, e); Fresh(t, [1]) && t.subscribers == [0] && t.entry == map[0 := e]
  {
    AloneRegistered(e);
    AloneListed(e.info.skills.events, p.want.action);
    SelectSingle<nat>(0, map[0 := e], p, s);
    assert Fresh(Insert(NOBODY, 0, e), [1]);
  }

  lemma SelectSingle<R>(r: R, entry: map<R, Entry>, p: Publication, s: Services)
    requires r in entry && Accepts(entry[r], p, s)
    ensures Select([r], entry, p, s) == [r]
  {
    assert Select([r], entry, p, s) == [r] + Select([], entry, p, s);
  }

  lemma AloneFoundTwice(e: Entry, p: Publication, s: Services)
    requires multiset(e.info.skills.events)[p.want.action] == 2 && Accepts(e, p, s)
    ensures var t := Insert(NOBODY, 0, e);
      && Consistent(t) && Fresh(t, [1]) && Query(t, p, s) == [0]
      && multiset(Query(Compact(t, [1]), p, s))[1] == 2
  {
    Alone(e, p, s);
    CompactedReceives(Insert(NOBODY, 0, e), [1], p, s, 0);
  }

  lemma Repeated(s: seq<string>) returns (x: string)
    requires !NoDuplicates(s)
    ensures multiset(s)[x] > 1
  {
    var i, j :| 0 <= i < j < |s| && s[i] == s[j];
    x := s[i];
    assert s == s[..i] + [s[i]] + s[i + 1..j] + [s[j]] + s[j + 1..];
  }

  // ---- Compaction is invisible

  /** What the pointers point to. */
  function Values<R(==)>(s: seq<R>, entry: map<R, Entry>): seq<Entry> {
    if s == [] then []
    else (if s[0] in entry then [entry[s[0]]] else []) + Values(s[1..], entry)
  }

  lemma {:induction false} ValuesOfConcat<R>(a: seq<R>, b: seq<R>, entry: map<R, Entry>)
    ensures Values(a + b, entry) == Values(a, entry) + Values(b, entry)
  {
    if a == [] {
      assert a + b == b;
    } else {
      assert (a + b)[1..] == a[1..] + b;
      ValuesOfConcat(a[1..], b, entry);
    }
  }

  lemma TakeOut<R>(a: seq<R>, b: seq<R>) returns (before: seq<R>, after: seq<R>)
    requires a != [] && multiset(a) == multiset(b)
    ensures b == before + [a[0]] + after
    ensures multiset(a[1..]) == multiset(before + after)
  {
    assert a[0] in multiset(a);
    var i :| 0 <= i < |b| && b[i] == a[0];
    before, after := b[..i], b[i + 1..];
    assert b == before + [b[i]] + after;
    assert a == [a[0]] + a[1..];
    calc {
      multiset(a[1..]);
      multiset(a) - multiset{a[0]};
      multiset(b) - multiset{a[0]};
      multiset(before + after);
    }
  }

  /** The same pointers in another order point to the same records. */
  lemma {:induction false} ValuesOfPermutation<R>(a: seq<R>, b: seq<R>, entry: map<R, Entry>)
    requires multiset(a) == multiset(b)
    ensures multiset(Values(a, entry)) == multiset(Values(b, entry))
    decreases |a|
  {
    if a == [] {
      assert |multiset(b)| == 0;
    } else {
      var before, after := TakeOut(a, b);
      ValuesOfPermutation(a[1..], before + after, entry);
      ValuesAround(before, a[0], after, entry);
      assert a == [a[0]] + a[1..];
      ValuesOfConcat([a[0]], a[1..], entry);
    }
  }

  lemma ValuesAround<R>(before: seq<R>, x: R, after: seq<R>, entry: map<R, Entry>)
    ensures multiset(Values(before + [x] + after, entry)) ==
              multiset(Values([x], entry)) + multiset(Values(before + after, entry))
  {
    ValuesOfConcat(before, after, entry);
    ValuesOfConcat(before + [x], after, entry);
    ValuesOfConcat(before, [x], entry);
  }

  /** Pointers to equal records are selected alike. */
  lemma {:induction false} SelectCopies<R>(a: seq<R>, b: seq<R>, entryA: map<R, Entry>, entryB: map<R, Entry>,
                                           p: Publication, s: Services)
    requires |a| == |b| && forall i :: 0 <= i < |a| ==> a[i] in entryA && b[i] in entryB && entryA[a[i]] == entryB[b[i]]
    ensures Values(Select(a, entryA, p, s), entryA) == Values(Select(b, entryB, p, s), entryB)
  {
    if a != [] {
      SelectCopies(a[1..], b[1..], entryA, entryB, p, s);
      var restA, restB := Select(a[1..], entryA, p, s), Select(b[1..], entryB, p, s);
      assert [] + restA == restA && [] + restB == restB;
      assert ([a[0]] + restA)[1..] == restA && ([b[0]] + restB)[1..] == restB;
    }
  }

  lemma {:induction false} CountCopies<R>(t: Table<R>, c: Table<R>, a: seq<R>, b: seq<R>, pid: int)
    requires |a| == |b| && forall i :: 0 <= i < |a| ==> PidOf(t, a[i]) == PidOf(c, b[i])
    ensures CountPid(t, a, pid) == CountPid(c, b, pid)
  {
    if a != [] {
      CountCopies(t, c, a[1..], b[1..], pid);
    }
  }

  lemma SameMatches<R>(t: Table<R>, c: Table<R>, p: Publication, s: Services)
    requires Consistent(t) && Consistent(c) && |c.subscribers| == |t.subscribers|
    requires forall i :: 0 <= i < |t.subscribers| ==>
               c.subscribers[i] in c.entry && c.entry[c.subscribers[i]] == t.entry[t.subscribers[i]]
    ensures multiset(Values(Query(c, p, s), c.entry)) == multiset(Values(Query(t, p, s), t.entry))
  {
    QueryIsScan(t, p, s);
    QueryIsScan(c, p, s);
    ValuesOfPermutation(Query(t, p, s), Select(t.subscribers, t.entry, p, s), t.entry);
    ValuesOfPermutation(Query(c, p, s), Select(c.subscribers, c.entry, p, s), c.entry);
    SelectCopies(t.subscribers, c.subscribers, t.entry, c.entry, p, s);
  }

  /** For every event compaction leaves the matched records and every process's count as they were; only the
      pointers, and with them the order, may differ. */
  lemma CompactionIsInvisible<R>(t: Table<R>, copies: seq<R>, p: Publication, s: Services, pid: int)
    requires Consistent(t) && Fresh(t, copies) && DuplicateFree(t)
    ensures var c := Compact(t, copies);
            && Consistent(c)
            && multiset(Values(Query(c, p, s), c.entry)) == multiset(Values(Query(t, p, s), t.entry))
            && CountOf(c.counts, pid) == CountOf(t.counts, pid)
            && c.counts.Keys == t.counts.Keys
  {
    var c := Compact(t, copies);
    CompactKeeps(t, copies, |copies|);
    CopiedSoFar(t, copies, |copies|);
    assert c.subscribers == copies;
    SameMatches(t, c, p, s);
    SameCounts(t, c, copies);
  }

  lemma SameCounts<R>(t: Table<R>, c: Table<R>, copies: seq<R>)
    requires Consistent(t) && Consistent(c) && c.subscribers == copies && |copies| == |t.subscribers|
    requires forall i :: 0 <= i < |copies| ==> copies[i] in c.entry && c.entry[copies[i]] == t.entry[t.subscribers[i]]
    ensures forall pid :: CountOf(c.counts, pid) == CountOf(t.counts, pid)
    ensures c.counts.Keys == t.counts.Keys
  {
    forall pid ensures CountOf(c.counts, pid) == CountOf(t.counts, pid) && (pid in c.counts <==> pid in t.counts) {
      CountCopies(t, c, t.subscribers, copies, pid);
      assert CountOf(t.counts, pid) == CountPid(t, t.subscribers, pid);
      assert CountOf(c.counts, pid) == CountPid(c, c.subscribers, pid);
    }
    assert forall pid :: pid in c.counts.Keys <==> pid in t.counts.Keys;
  }
}
