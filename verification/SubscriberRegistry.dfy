/** The registry's operations as a whole and the runs they make: the tables agree in every state of a run
    exactly when no step breaks one of two rules, and the subscriber limit chooses the busiest process. */
module SubscriberRegistry {
  import opened Listeners
  import opened Lists
  import opened Wrappers
  import opened Subscribers
  import opened SubscriberTable
  import opened SubscriberUpdate
  import opened SubscriberQueries

  const SUBSCRIBE_EVENT_MAX_NUM := 512

  // ---- The limit

  /** CheckSubscriberCountReachedMaxinum; the alarm at 80% of the limit is tested first. */
  predicate LimitReached(count: nat, limit: nat) {
    if count == limit * 4 / 5 then false else count == limit
  }

  /** `top` is what GetTopSubscriberCounts(k) may return: the table's entries with the highest counts, in
      descending order. Ties go either way. */
  ghost predicate IsTop(counts: map<int, nat>, k: nat, top: seq<(int, nat)>) {
    && |top| == (if k < |counts| then k else |counts|)
    && (forall i :: 0 <= i < |top| ==> top[i].0 in counts && counts[top[i].0] == top[i].1)
    && (forall i, j :: 0 <= i < j < |top| ==> top[i].0 != top[j].0 && top[i].1 >= top[j].1)
    && (forall pid, i :: pid in counts && 0 <= i < |top| && (forall j :: 0 <= j < |top| ==> top[j].0 != pid) ==>
          counts[pid] <= top[i].1)
  }

  /** The index of a largest entry at or after `start`. */
  method Largest(items: seq<(int, nat)>, start: nat) returns (best: nat)
    requires start < |items|
    ensures start <= best < |items|
    ensures forall j :: start <= j < |items| ==> items[j].1 <= items[best].1
  {
    best := start;
    for j := start to |items|
      invariant start <= best < |items|
      invariant forall i :: start <= i < j ==> items[i].1 <= items[best].1
    {
      if items[j].1 > items[best].1 {
        best := j;
      }
    }
  }

  predicate Names(items: seq<(int, nat)>, pid: int) {
    exists i :: 0 <= i < |items| && items[i].0 == pid
  }

  /** The items list every process of the table once. */
  ghost predicate Enumerates(counts: map<int, nat>, items: seq<(int, nat)>) {
    && (forall i :: 0 <= i < |items| ==> items[i].0 in counts && counts[items[i].0] == items[i].1)
    && (forall i, j :: 0 <= i < j < |items| ==> items[i].0 != items[j].0)
    && (forall pid :: pid in counts ==> Names(items, pid))
    && |items| == |counts|
  }

  /** The table's entries in some order. */
  method Entries(counts: map<int, nat>) returns (items: seq<(int, nat)>)
    ensures Enumerates(counts, items)
  {
    items := [];
    var rest: set<int> := counts.Keys;
    while rest != {}
      invariant rest <= counts.Keys && |items| + |rest| == |counts.Keys|
      invariant forall i :: 0 <= i < |items| ==>
                  items[i].0 in counts && items[i].0 !in rest && counts[items[i].0] == items[i].1
      invariant forall i, j :: 0 <= i < j < |items| ==> items[i].0 != items[j].0
      invariant forall pid :: pid in counts && pid !in rest ==> Names(items, pid)
    {
      ghost var someone := Someone(rest);
      var pid :| pid in rest;
      ghost var before := items;
      items := items + [(pid, counts[pid])];
      rest := rest - {pid};
      assert items[|items| - 1].0 == pid;
      forall q | q in counts && q !in rest ensures Names(items, q) {
        if q != pid {
          var i :| 0 <= i < |before| && before[i].0 == q;
          assert items[i].0 == q;
        }
      }
    }
  }

  /** The library's partial sort: the first `k` places get the largest entries, largest first. */
  method PartialSort(counts: map<int, nat>, unsorted: seq<(int, nat)>, k: nat) returns (items: seq<(int, nat)>)
    requires Enumerates(counts, unsorted) && k <= |unsorted|
    ensures Enumerates(counts, items)
    ensures forall i, j :: 0 <= i < k && i < j < |items| ==> items[i].1 >= items[j].1
  {
    items := unsorted;
    for n := 0 to k
      invariant Enumerates(counts, items) && |items| == |unsorted|
      invariant forall i, j :: 0 <= i < n && i < j < |items| ==> items[i].1 >= items[j].1
    {
      var best := Largest(items, n);
      ghost var before := items;
      items := items[n := items[best]][best := items[n]];
      SwapLists(counts, before, n, best);
    }
  }

  lemma SwapCovers(items: seq<(int, nat)>, a: nat, b: nat, pid: int)
    requires a < |items| && b < |items| && Names(items, pid)
    ensures Names(items[a := items[b]][b := items[a]], pid)
  {
    var swapped := items[a := items[b]][b := items[a]];
    var i :| 0 <= i < |items| && items[i].0 == pid;
    assert swapped[if i == a then b else if i == b then a else i].0 == pid;
  }

  lemma SwapLists(counts: map<int, nat>, items: seq<(int, nat)>, a: nat, b: nat)
    requires Enumerates(counts, items) && a < |items| && b < |items|
    ensures Enumerates(counts, items[a := items[b]][b := items[a]])
  {
    forall pid | pid in counts ensures Names(items[a := items[b]][b := items[a]], pid) {
      SwapCovers(items, a, b, pid);
    }
  }

  /** The first `k` of a list whose first `k` are the largest, largest first. */
  lemma FirstAreTop(counts: map<int, nat>, items: seq<(int, nat)>, k: nat)
    requires Enumerates(counts, items) && k <= |items|
    requires forall i, j :: 0 <= i < k && i < j < |items| ==> items[i].1 >= items[j].1
    ensures IsTop(counts, k, items[..k])
  {
    var top := items[..k];
    forall pid, i | pid in counts && 0 <= i < |top| && (forall j :: 0 <= j < |top| ==> top[j].0 != pid)
      ensures counts[pid] <= top[i].1
    {
      assert Names(items, pid);
      assert forall j :: 0 <= j < k ==> top[j] == items[j];
    }
  }

  /** GetTopSubscriberCounts. */
  method GetTopSubscriberCounts(counts: map<int, nat>, topNum: nat) returns (top: seq<(int, nat)>)
    ensures IsTop(counts, topNum, top)
  {
    if |counts| == 0 {
      return [];
    }
    var items := Entries(counts);
    var k := if topNum < |items| then topNum else |items|;
    items := PartialSort(counts, items, k);
    FirstAreTop(counts, items, k);
    top := items[..k];
  }

  lemma {:induction false} SomeoneCounts<R>(t: Table<R>)
    requires Counted(t) && t.subscribers != []
    ensures |t.counts| > 0
  {
    var pid := PidOf(t, t.subscribers[0]);
    CountMember(t, t.subscribers, t.subscribers[0]);
    assert CountOf(t.counts, pid) == CountPid(t, t.subscribers, pid);
    assert pid in t.counts.Keys;
  }

  /** At the limit there is a process to choose, and no process has more live subscribers than the chosen one. */
  lemma ChosenHasMost<R>(t: Table<R>, limit: nat, top: seq<(int, nat)>, pid: int)
    requires Counted(t) && LimitReached(|t.subscribers|, limit) && IsTop(t.counts, 1, top)
    ensures |top| == 1
    ensures CountPid(t, t.subscribers, pid) <= CountPid(t, t.subscribers, top[0].0) == top[0].1
  {
    SomeoneCounts(t);
    assert CountOf(t.counts, pid) == CountPid(t, t.subscribers, pid);
    assert CountOf(t.counts, top[0].0) == CountPid(t, t.subscribers, top[0].0);
  }

  // ---- Operations

  /** InsertSubscriber for a caller's subscription under the new pointer `r`, when `top` is the process chosen at
      the limit. */
  function Subscribe<R(==)>(t: Table<R>, r: R, listener: Option<Listener>, info: Option<SubscribeInfo>, owner: Owner,
                            recordTime: int, limit: nat, top: int): (Table<R>, Option<R>) {
    if info == None || listener == None then (t, None)
    else if |info.value.skills.events| == 0 || |info.value.skills.events| > SUBSCRIBE_EVENT_MAX_NUM then (t, None)
    else
      match Find(t.subscribers, t.entry, listener.value)
      case Some(q) => (Update(t, q, Renewed(t, q, info.value, owner, recordTime)), Some(q))
      case None =>
        if LimitReached(|t.subscribers|, limit) && owner.pid == top then (t, None)
        else (Insert(t, r, Entry(listener.value, info.value, owner, false, 0, recordTime)), Some(r))
  }

  /** A record after re-subscription: the freeze state stays. */
  function Renewed<R(==)>(t: Table<R>, q: R, info: SubscribeInfo, owner: Owner, recordTime: int): Entry {
    if q in t.entry then t.entry[q].(info := info, owner := owner, recordTime := recordTime)
    else Entry(0, info, owner, false, 0, recordTime)
  }

  /** UpdateFreezeInfo over the subscribers in `who`. */
  function UpdateFreezeInfo<R(==)>(t: Table<R>, who: Owner -> bool, freezeState: bool, freezeTime: int): Table<R> {
    t.(entry := map r | r in t.entry ::
         if r in t.subscribers && who(t.entry[r].owner)
         then t.entry[r].(isFreeze := freezeState, freezeTime := if freezeState then freezeTime else 0)
         else t.entry[r])
  }

  /** A subscription looks its listener up and then inserts or updates, under the lock each time. `Subscription` is
      both with nothing in between; `Renewal` is the update of a record found before something else ran, such as the
      removal of a listener that died. */
  datatype Operation<R> =
    | Subscription(r: R, listener: Option<Listener>, info: Option<SubscribeInfo>, owner: Owner, recordTime: int,
                   limit: nat, top: int)
    | Renewal(found: R, renewed: SubscribeInfo, renewer: Owner, renewalTime: int)
    | Unsubscription(leaving: Listener)
    | Compaction(copies: seq<R>)
    | FreezeChange(who: Owner -> bool, freezeState: bool, freezeTime: int)

  /** New pointers are new, and at the limit the chosen process is one GetTopSubscriberCounts may return; a record that
      was found is known. */
  ghost predicate Possible<R>(t: Table<R>, op: Operation<R>) {
    && (op.Subscription? ==>
          && op.r !in t.entry && op.r !in t.subscribers
          && (LimitReached(|t.subscribers|, op.limit) ==>
                exists top: seq<(int, nat)> :: IsTop(t.counts, 1, top) && |top| > 0 && top[0].0 == op.top))
    && (op.Compaction? ==> Registered(t) && Fresh(t, op.copies))
    && (op.Renewal? ==> op.found in t.entry && 0 < |op.renewed.skills.events| <= SUBSCRIBE_EVENT_MAX_NUM)
  }

  ghost function Apply<R>(t: Table<R>, op: Operation<R>): Table<R>
    requires Possible(t, op)
  {
    match op
    case Subscription(r, listener, info, owner, recordTime, limit, top) =>
      Subscribe(t, r, listener, info, owner, recordTime, limit, top).0
    case Renewal(q, info, owner, recordTime) => Update(t, q, Renewed(t, q, info, owner, recordTime))
    case Unsubscription(listener) => Remove(t, listener)
    case Compaction(copies) => Compact(t, copies)
    case FreezeChange(who, freezeState, freezeTime) => UpdateFreezeInfo(t, who, freezeState, freezeTime)
  }

  /** Whether a subscription is accepted at all. */
  predicate WellFormed<R>(op: Operation<R>)
    requires op.Subscription?
  {
    op.info.Some? && op.listener.Some? && 0 < |op.info.value.skills.events| <= SUBSCRIBE_EVENT_MAX_NUM
  }

  /** The rules: a renewed subscription lists no event that stays fewer times than before and comes from the same
      process, or, if its record has gone meanwhile, lists no event more often than before; compaction finds no event
      listed twice. */
  ghost predicate Safe<R>(t: Table<R>, op: Operation<R>) {
    match op
    case Subscription(_, listener, info, owner, _, _, _) =>
      (WellFormed(op) && Find(t.subscribers, t.entry, listener.value).Some? ==>
         var q := Find(t.subscribers, t.entry, listener.value).value;
         KeepsCopies(Events(t, q), info.value.skills.events) && owner.pid == PidOf(t, q))
    case Renewal(q, info, owner, _) =>
      if q in t.subscribers then KeepsCopies(Events(t, q), info.skills.events) && owner.pid == PidOf(t, q)
      else AddsNothing(Events(t, q), info.skills.events)
    case Compaction(_) => DuplicateFree(t)
    case Unsubscription(_) => true
    case FreezeChange(_, _, _) => true
  }

  lemma SubscriptionExactly<R>(t: Table<R>, op: Operation<R>)
    requires Consistent(t) && op.Subscription? && Possible(t, op)
    ensures Consistent(Apply(t, op)) <==> Safe(t, op)
  {
    if WellFormed(op) {
      FindSpec(t.subscribers, t.entry, op.listener.value);
      match Find(t.subscribers, t.entry, op.listener.value)
      case Some(q) =>
        UpdateExactly(t, q, Renewed(t, q, op.info.value, op.owner, op.recordTime));
      case None =>
        var e := Entry(op.listener.value, op.info.value, op.owner, false, 0, op.recordTime);
        InsertKeeps(t, op.r, e);
    }
  }

  lemma FreezeKeeps<R>(t: Table<R>, who: Owner -> bool, freezeState: bool, freezeTime: int)
    requires Consistent(t)
    ensures Consistent(UpdateFreezeInfo(t, who, freezeState, freezeTime))
  {
    var t1 := UpdateFreezeInfo(t, who, freezeState, freezeTime);
    assert forall r :: r in t.subscribers ==>
      ListenerOf(t1, r) == ListenerOf(t, r) && Events(t1, r) == Events(t, r) && PidOf(t1, r) == PidOf(t, r);
    forall pid ensures CountPid(t1, t1.subscribers, pid) == CountPid(t, t.subscribers, pid) {
      CountFrame(t, t1, t.subscribers, pid);
    }
  }

  lemma RenewalExactly<R>(t: Table<R>, op: Operation<R>)
    requires Consistent(t) && op.Renewal? && Possible(t, op)
    ensures Consistent(Apply(t, op)) <==> Safe(t, op)
  {
    var e := Renewed(t, op.found, op.renewed, op.renewer, op.renewalTime);
    if op.found in t.subscribers { UpdateExactly(t, op.found, e); } else { UpdateGoneExactly(t, op.found, e); }
  }

  /** From tables that agree, a step leaves tables that agree exactly when it is safe. */
  lemma StepExactly<R>(t: Table<R>, op: Operation<R>)
    requires Consistent(t) && Possible(t, op)
    ensures Consistent(Apply(t, op)) <==> Safe(t, op)
  {
    match op
    case Subscription(_, _, _, _, _, _, _) => SubscriptionExactly(t, op);
    case Renewal(_, _, _, _) => RenewalExactly(t, op);
    case Unsubscription(listener) => RemoveKeeps(t, listener);
    case Compaction(copies) => CompactExactly(t, copies);
    case FreezeChange(who, freezeState, freezeTime) => FreezeKeeps(t, who, freezeState, freezeTime);
  }

  /** The `i`th operation is possible where it is carried out, and the next tables follow from it. */
  ghost predicate Follows<R>(tables: seq<Table<R>>, ops: seq<Operation<R>>, i: int)
    requires |tables| == |ops| + 1 && 0 <= i < |ops|
  {
    Possible(tables[i], ops[i]) && tables[i + 1] == Apply(tables[i], ops[i])
  }

  /** A run of the registry from its empty start. */
  ghost predicate Run<R>(tables: seq<Table<R>>, ops: seq<Operation<R>>) {
    && |tables| == |ops| + 1
    && tables[0] == Table([], map[], map[], map[])
    && forall i :: 0 <= i < |ops| ==> Follows(tables, ops, i)
  }

  lemma {:induction false} SafeSoFar<R>(tables: seq<Table<R>>, ops: seq<Operation<R>>, n: nat)
    requires Run(tables, ops) && n <= |ops|
    requires forall i :: 0 <= i < n ==> Safe(tables[i], ops[i])
    ensures Consistent(tables[n])
  {
    if n == 0 {
      var t := tables[0];
      assert t.subscribers == [] && t.index == map[] && t.counts == map[];
    } else {
      SafeSoFar(tables, ops, n - 1);
      assert Follows(tables, ops, n - 1);
      StepExactly(tables[n - 1], ops[n - 1]);
    }
  }

  /** The three tables agree in every state of a run exactly when every step of it is safe. */
  lemma RunExactly<R>(tables: seq<Table<R>>, ops: seq<Operation<R>>)
    requires Run(tables, ops)
    ensures (forall i :: 0 <= i < |tables| ==> Consistent(tables[i])) <==>
            (forall i :: 0 <= i < |ops| ==> Safe(tables[i], ops[i]))
  {
    if forall i :: 0 <= i < |tables| ==> Consistent(tables[i]) {
      forall i | 0 <= i < |ops| ensures Safe(tables[i], ops[i]) {
        assert Follows(tables, ops, i);
        assert Consistent(tables[i]) && Consistent(tables[i + 1]);
        StepExactly(tables[i], ops[i]);
      }
    }
    if forall i :: 0 <= i < |ops| ==> Safe(tables[i], ops[i]) {
      forall i | 0 <= i < |tables| ensures Consistent(tables[i]) {
        SafeSoFar(tables, ops, i);
      }
    }
  }

  // ---- What callers can do to stay safe

  /** Callers list no event twice, a listener re-subscribes from the process it subscribed from, and none dies while it
      does. */
  ghost predicate Polite<R>(t: Table<R>, op: Operation<R>) {
    && (op.Subscription? && WellFormed(op) ==>
          && NoDuplicates(op.info.value.skills.events)
          && (Find(t.subscribers, t.entry, op.listener.value).Some? ==>
                op.owner.pid == PidOf(t, Find(t.subscribers, t.entry, op.listener.value).value)))
    && (op.Renewal? ==>
          && op.found in t.subscribers
          && NoDuplicates(op.renewed.skills.events) && op.renewer.pid == PidOf(t, op.found))
  }

  lemma PoliteIsSafe<R>(t: Table<R>, op: Operation<R>)
    requires DuplicateFree(t) && Polite(t, op)
    ensures Safe(t, op)
  {
    if op.Subscription? && WellFormed(op) && Find(t.subscribers, t.entry, op.listener.value).Some? {
      FindSpec(t.subscribers, t.entry, op.listener.value);
      var q := Find(t.subscribers, t.entry, op.listener.value).value;
      DuplicateFreeKeepsCopies(Events(t, q), op.info.value.skills.events);
    } else if op.Renewal? {
      DuplicateFreeKeepsCopies(Events(t, op.found), op.renewed.skills.events);
    }
  }

  lemma PoliteKeeps<R>(t: Table<R>, op: Operation<R>)
    requires Consistent(t) && DuplicateFree(t) && Possible(t, op) && Polite(t, op)
    ensures Consistent(Apply(t, op)) && DuplicateFree(Apply(t, op))
  {
    PoliteIsSafe(t, op);
    StepExactly(t, op);
    match op
    case Subscription(_, _, _, _, _, _, _) => SubscriptionDuplicateFree(t, op);
    case Renewal(_, _, _, _) =>
      var t1 := Apply(t, op);
      assert forall r :: r in t1.subscribers && r != op.found ==> r in t.subscribers && Events(t1, r) == Events(t, r);
    case Unsubscription(listener) => RemovalDuplicateFree(t, listener);
    case Compaction(copies) => CompactionDuplicateFree(t, copies);
    case FreezeChange(who, freezeState, freezeTime) =>
      var t1 := Apply(t, op);
      assert forall r :: r in t.subscribers ==> Events(t1, r) == Events(t, r);
  }

  lemma SubscriptionDuplicateFree<R>(t: Table<R>, op: Operation<R>)
    requires Registered(t) && DuplicateFree(t) && op.Subscription? && Possible(t, op) && Polite(t, op)
    ensures DuplicateFree(Apply(t, op))
  {
    if WellFormed(op) {
      FindSpec(t.subscribers, t.entry, op.listener.value);
      var t1 := Apply(t, op);
      forall r | r in t1.subscribers ensures NoDuplicates(Events(t1, r)) {
        if r in t.subscribers { assert NoDuplicates(Events(t, r)); }
      }
    }
  }

  lemma RemovalDuplicateFree<R>(t: Table<R>, listener: Listener)
    requires Registered(t) && DuplicateFree(t)
    ensures DuplicateFree(Remove(t, listener))
  {
    FindSpec(t.subscribers, t.entry, listener);
    var t1 := Remove(t, listener);
    forall r | r in t1.subscribers ensures NoDuplicates(Events(t1, r)) {
      if Find(t.subscribers, t.entry, listener).Some? {
        EraseMembers(t.subscribers, Find(t.subscribers, t.entry, listener).value, r);
      }
      assert NoDuplicates(Events(t, r));
    }
  }

  lemma CompactionDuplicateFree<R>(t: Table<R>, copies: seq<R>)
    requires Registered(t) && Fresh(t, copies) && DuplicateFree(t)
    ensures DuplicateFree(Compact(t, copies))
  {
    CopiedSoFar(t, copies, |copies|);
    var c := Compact(t, copies);
    forall r | r in c.subscribers ensures NoDuplicates(Events(c, r)) {
      var i :| 0 <= i < |copies| && copies[i] == r;
      assert NoDuplicates(Events(t, t.subscribers[i]));
    }
  }

  /** With polite callers every publication, at any time, reaches exactly the live subscribers that pass its
      checks, and the count table is exact. */
  lemma PoliteRun<R>(tables: seq<Table<R>>, ops: seq<Operation<R>>, n: nat, p: Publication, s: Services)
    requires Run(tables, ops) && n <= |ops| && forall i :: 0 <= i < |ops| ==> Polite(tables[i], ops[i])
    ensures var t := tables[n];
            && Consistent(t) && DuplicateFree(t)
            && multiset(Query(t, p, s)) == multiset(Select(t.subscribers, t.entry, p, s))
  {
    PoliteSoFar(tables, ops, n);
    QueryIsScan(tables[n], p, s);
  }

  lemma {:induction false} PoliteSoFar<R>(tables: seq<Table<R>>, ops: seq<Operation<R>>, n: nat)
    requires Run(tables, ops) && n <= |ops| && forall i :: 0 <= i < |ops| ==> Polite(tables[i], ops[i])
    ensures Consistent(tables[n]) && DuplicateFree(tables[n])
  {
    if n == 0 {
      SafeSoFar(tables, ops, 0);
    } else {
      PoliteSoFar(tables, ops, n - 1);
      assert Follows(tables, ops, n - 1);
      PoliteKeeps(tables[n - 1], ops[n - 1]);
    }
  }

  // ---- Refusal

  /** A subscription is turned down exactly when it is malformed, or it is a new listener's, arriving when the
      count equals the limit, from the process that has the most; then no table changes. */
  lemma RefusedExactly<R>(t: Table<R>, op: Operation<R>)
    requires op.Subscription?
    ensures var result := Subscribe(t, op.r, op.listener, op.info, op.owner, op.recordTime, op.limit, op.top);
            && (result.1 == None <==>
                  || !WellFormed(op)
                  || (Find(t.subscribers, t.entry, op.listener.value) == None
                      && |t.subscribers| == op.limit > 0 && op.owner.pid == op.top))
            && (result.1 == None ==> result.0 == t)
  {
  }

  // ---- The limit is no cap

  /** A new listener's subscription that arrives when the registry is full and is let in: the process chosen at the
      limit is another one, or the limit is zero. */
  predicate SlipsIn<R(==)>(t: Table<R>, op: Operation<R>, limit: nat) {
    && op.Subscription? && WellFormed(op) && Find(t.subscribers, t.entry, op.listener.value) == None
    && |t.subscribers| == limit && (limit == 0 || op.owner.pid != op.top)
  }

  lemma SizeStep<R>(t: Table<R>, op: Operation<R>, limit: nat)
    requires Possible(t, op) && (op.Subscription? ==> op.limit == limit) && |t.subscribers| <= limit
    ensures |Apply(t, op).subscribers| <= limit <==> !SlipsIn(t, op, limit)
  {
    match op
    case Unsubscription(listener) => RemoveShrinks(t, listener);
    case Compaction(copies) => CopiedSoFar(t, copies, |copies|);
    case _ =>
  }

  lemma RemoveShrinks<R>(t: Table<R>, listener: Listener)
    ensures |Remove(t, listener).subscribers| <= |t.subscribers|
  {
    if Find(t.subscribers, t.entry, listener).Some? {
      EraseLength(t.subscribers, Find(t.subscribers, t.entry, listener).value);
    }
  }

  lemma {:induction false} SizeUpTo<R>(tables: seq<Table<R>>, ops: seq<Operation<R>>, limit: nat, n: nat)
    requires Run(tables, ops) && n <= |ops|
    requires forall i :: 0 <= i < n ==>
               (ops[i].Subscription? ==> ops[i].limit == limit) && !SlipsIn(tables[i], ops[i], limit)
    ensures |tables[n].subscribers| <= limit
  {
    if n > 0 {
      SizeUpTo(tables, ops, limit, n - 1);
      assert Follows(tables, ops, n - 1);
      SizeStep(tables[n - 1], ops[n - 1], limit);
    }
  }

  /** While the limit stays the same a run keeps to it exactly if no subscription of a new listener ever meets a full
      registry and comes from a process other than the one chosen. */
  lemma CapExactly<R>(tables: seq<Table<R>>, ops: seq<Operation<R>>, limit: nat)
    requires Run(tables, ops) && forall i :: 0 <= i < |ops| && ops[i].Subscription? ==> ops[i].limit == limit
    ensures (forall i :: 0 <= i < |tables| ==> |tables[i].subscribers| <= limit) <==>
            (forall i :: 0 <= i < |ops| ==> !SlipsIn(tables[i], ops[i], limit))
  {
    if forall i :: 0 <= i < |tables| ==> |tables[i].subscribers| <= limit {
      forall i | 0 <= i < |ops| ensures !SlipsIn(tables[i], ops[i], limit) {
        assert Follows(tables, ops, i);
        assert |tables[i].subscribers| <= limit && |tables[i + 1].subscribers| <= limit;
        SizeStep(tables[i], ops[i], limit);
      }
    }
    if forall i :: 0 <= i < |ops| ==> !SlipsIn(tables[i], ops[i], limit) {
      forall i | 0 <= i < |tables| ensures |tables[i].subscribers| <= limit {
        SizeUpTo(tables, ops, limit, i);
      }
    }
  }

  /** The `n`-th of a line of subscriptions, each from a process of its own, while the limit is one. */
  function Newcomer(n: nat): Operation<nat> {
    Subscription(n, Some(n), Some(SubscribeInfo("", 0, 0, 0, "", Skills([], ["event"], []), "", 0)),
                 Owner(n, n, 0, "", false, false, false), 0, 1, 0)
  }

  ghost predicate Crowd(t: Table<nat>, n: nat) {
    && |t.subscribers| == n
    && (forall r :: r in t.entry ==> r < n && t.entry[r].listener == r)
    && (forall r :: r in t.subscribers ==> r < n)
    && (n == 1 ==> t.counts == map[0 := 1])
  }

  lemma NewcomerIsIn(t: Table<nat>, n: nat)
    requires Crowd(t, n) && (n == 0 ==> t.counts == map[])
    ensures Possible(t, Newcomer(n)) && Crowd(Apply(t, Newcomer(n)), n + 1)
  {
    FindSpec(t.subscribers, t.entry, n);
    if n == 1 {
      assert t.counts.Keys == {0};
      assert IsTop(t.counts, 1, [(0, 1)]);
    }
    var t1 := Apply(t, Newcomer(n));
    assert t1.subscribers == t.subscribers + [n];
    assert t1.counts == AddCount(t.counts, n);
  }

  /** However many there are already, a limit of one does not keep the next one out: the test is an equality, and
      the process it chooses is not the one that asks. */
  lemma {:induction false} LimitIsNoCap(n: nat) returns (tables: seq<Table<nat>>, ops: seq<Operation<nat>>)
    ensures Run(tables, ops) && |ops| == n
    ensures forall i :: 0 <= i < n ==> ops[i].Subscription? && ops[i].limit == 1
    ensures |tables[n].subscribers| == n
    ensures Crowd(tables[n], n) && (n == 0 ==> tables[n].counts == map[])
  {
    if n == 0 {
      tables, ops := [Table([], map[], map[], map[])], [];
    } else {
      var before, past := LimitIsNoCap(n - 1);
      var t := before[n - 1];
      NewcomerIsIn(t, n - 1);
      tables, ops := before + [Apply(t, Newcomer(n - 1))], past + [Newcomer(n - 1)];
      forall i | 0 <= i < |ops| ensures Follows(tables, ops, i) {
        if i < n - 1 {
          assert Follows(before, past, i);
          assert tables[i] == before[i] && ops[i] == past[i] && tables[i + 1] == before[i + 1];
        }
      }
    }
  }

  lemma Extend(tables: seq<Table<nat>>, ops: seq<Operation<nat>>, op: Operation<nat>)
      returns (longer: seq<Table<nat>>, more: seq<Operation<nat>>)
    requires Run(tables, ops) && Possible(tables[|ops|], op)
    ensures Run(longer, more) && more == ops + [op] && longer == tables + [Apply(tables[|ops|], op)]
  {
    longer, more := tables + [Apply(tables[|ops|], op)], ops + [op];
    forall i | 0 <= i < |more| ensures Follows(longer, more, i) {
      if i < |ops| { assert Follows(tables, ops, i); }
    }
  }

  // ---- A subscriber that dies while it re-subscribes

  /** What listener 1 asks for: one event. */
  function InfoFor(event: string): SubscribeInfo {
    SubscribeInfo("", 0, 0, 0, "", Skills([], [event], []), "", 0)
  }

  function OwnerAt(pid: int): Owner {
    Owner(pid, pid, 0, "", false, false, false)
  }

  lemma RenewedWhenGone(t: Table<nat>)
    requires t.subscribers == [] && t.index == map[] && 0 in t.entry && t.entry[0].info == InfoFor("a")
    ensures var op := Renewal(0, InfoFor("b"), OwnerAt(5), 0);
      Possible(t, op) && Apply(t, op).subscribers == [] && Lookup(Apply(t, op).index, "b") == [0]
  {
    var e := Renewed(t, 0, InfoFor("b"), OwnerAt(5), 0);
    UpdateAt(t, 0, e, "b");
    assert multiset(["b"])["b"] == 1 && multiset(["a"])["b"] == 0;
  }

  /** Its record is removed between the look-up and the update, and then put into the list of its new event: nobody is
      subscribed any more, and the event has a receiver. */
  lemma DeadReceiver() returns (tables: seq<Table<nat>>, ops: seq<Operation<nat>>)
    ensures Run(tables, ops) && |ops| == 3
    ensures tables[3].subscribers == [] && Lookup(tables[3].index, "b") == [0]
  {
    tables, ops := SubscribedAndGone();
    RenewedWhenGone(tables[2]);
    tables, ops := Extend(tables, ops, Renewal(0, InfoFor("b"), OwnerAt(5), 0));
  }

  lemma SubscribedAndGone() returns (tables: seq<Table<nat>>, ops: seq<Operation<nat>>)
    ensures Run(tables, ops) && |ops| == 2
    ensures var t := tables[2];
      t.subscribers == [] && t.index == map[] && 0 in t.entry && t.entry[0].info == InfoFor("a")
  {
    tables, ops := [Table([], map[], map[], map[])], [];
    var op := Subscription(0, Some(1), Some(InfoFor("a")), OwnerAt(5), 0, 100, 0);
    SubscribedAlone(tables[0], op);
    tables, ops := Extend(tables, ops, op);
    tables, ops := Extend(tables, ops, Unsubscription(1));
  }

  lemma SubscribedAlone(t: Table<nat>, op: Operation<nat>)
    requires t == Table([], map[], map[], map[])
    requires op == Subscription(0, Some(1), Some(InfoFor("a")), OwnerAt(5), 0, 100, 0)
    ensures Possible(t, op)
    ensures var t2 := Apply(Apply(t, op), Unsubscription(1));
      t2.subscribers == [] && t2.index == map[] && 0 in t2.entry && t2.entry[0].info == InfoFor("a")
  {
    var t1 := Apply(t, op);
    assert t1 == Insert(t, 0, Entry(1, InfoFor("a"), OwnerAt(5), false, 0, 0));
    assert t1.subscribers == [0] && t1.index == map["a" := [0]] && 0 in t1.entry && t1.entry[0].listener == 1;
    assert Find(t1.subscribers, t1.entry, 1) == Some(0);
  }

  // ---- Counts left behind

  /** Listener 1 subscribes from this process. */
  function From(r: nat, pid: int): Operation<nat> {
    Subscription(r, Some(1), Some(InfoFor("event")), OwnerAt(pid), 0, 100, 0)
  }

  /** Listener 1 is the only subscriber, its record is from process `pid`, and process 5 is counted once. */
  predicate OneFrom(t: Table<nat>, pid: int) {
    && t.subscribers == [0] && t.counts == map[5 := 1]
    && t.entry.Keys == {0} && t.entry[0].listener == 1 && t.entry[0].owner.pid == pid
  }

  lemma FirstFrom(t: Table<nat>)
    requires t == Table([], map[], map[], map[])
    ensures Possible(t, From(0, 5)) && OneFrom(Apply(t, From(0, 5)), 5)
  {
  }

  lemma AgainFrom(t: Table<nat>)
    requires OneFrom(t, 5)
    ensures Possible(t, From(1, 6)) && OneFrom(Apply(t, From(1, 6)), 6)
  {
    assert Find(t.subscribers, t.entry, 1) == Some(0);
  }

  lemma GoneFrom(t: Table<nat>)
    requires OneFrom(t, 6)
    ensures var t1 := Apply(t, Unsubscription(1)); t1.subscribers == [] && t1.counts == map[5 := 1]
  {
    assert Find(t.subscribers, t.entry, 1) == Some(0);
  }

  /** A listener that subscribes from process 5, again from process 6, and leaves: nobody is subscribed any more, and
      process 5 is still counted. */
  lemma CountLeftBehind() returns (tables: seq<Table<nat>>, ops: seq<Operation<nat>>)
    ensures Run(tables, ops) && |ops| == 3
    ensures tables[3].subscribers == [] && tables[3].counts == map[5 := 1]
  {
    tables, ops := [Table([], map[], map[], map[])], [];
    FirstFrom(tables[0]);
    tables, ops := Extend(tables, ops, From(0, 5));
    AgainFrom(tables[1]);
    tables, ops := Extend(tables, ops, From(1, 6));
    GoneFrom(tables[2]);
    tables, ops := Extend(tables, ops, Unsubscription(1));
  }
}
