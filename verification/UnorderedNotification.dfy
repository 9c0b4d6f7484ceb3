/** Notifying the receivers of an unordered event, and the store of events held back for frozen ones. */
module UnorderedNotification {
  import opened Listeners
  import opened Wrappers
  import opened FrozenWindow
  import opened FrozenEvents
  import opened OrderedRecords

  /** A receiver as the notification finds it. Whether its proxy is alive and whether the call succeeds are the
      outside world's answers. */
  datatype Target = Target(listener: Listener, uid: int, pid: int, isFreeze: bool, alive: bool, ok: bool)

  /** A receiver pointer; the code allows for null ones. */
  type Pointer = Option<Target>

  class Store {
    var frozenEvents: Buffers
    var frozenEventsMap: Buffers

    function Value(): State
      reads this
    {
      State(frozenEvents, frozenEventsMap)
    }

    constructor ()
      ensures Value() == State(map[], map[])
    {
      frozenEvents, frozenEventsMap := map[], map[];
    }

    /** The append both maps do: in the user map and the process map alike. */
    static method Put(m: Buffers, key: int, l: Listener, record: Event) returns (changed: Buffers)
      ensures changed == Insert(m, key, l, record)
    {
      if key in m {
        var frozenRecords := m[key];
        if l in frozenRecords {
          var eventRecords := frozenRecords[l] + [record];
          var timeDiff := eventRecords[|eventRecords| - 1].time - eventRecords[0].time;
          if timeDiff > FREEZE_EVENT_TIMEOUT {
            eventRecords := eventRecords[1..];
          }
          changed := m[key := frozenRecords[l := eventRecords]];
        } else {
          changed := m[key := frozenRecords[l := [record]]];
        }
      } else {
        changed := m[key := map[l := [record]]];
      }
    }

    method InsertFrozenEvents(subscriber: Pointer, record: Event)
      modifies this`frozenEvents
      ensures frozenEvents ==
                if subscriber == None then old(frozenEvents)
                else Insert(old(frozenEvents), subscriber.value.uid, subscriber.value.listener, record)
    {
      if subscriber == None {
        return;
      }
      frozenEvents := Put(frozenEvents, subscriber.value.uid, subscriber.value.listener, record);
    }

    method InsertFrozenEventsMap(subscriber: Pointer, record: Event)
      modifies this`frozenEventsMap
      ensures frozenEventsMap ==
                if subscriber == None then old(frozenEventsMap)
                else Insert(old(frozenEventsMap), subscriber.value.pid, subscriber.value.listener, record)
    {
      if subscriber == None {
        return;
      }
      frozenEventsMap := Put(frozenEventsMap, subscriber.value.pid, subscriber.value.listener, record);
    }

    /** GetFrozenEvents: what is held for a user, which is then no longer held. */
    method GetFrozenEvents(uid: int) returns (events: map<Listener, seq<Event>>)
      modifies this
      ensures Value() == Apply(old(Value()), ThawUid(uid))
      ensures forall l :: BufferOf(map[uid := events], uid, l) == BufferOf(old(frozenEvents), uid, l)
    {
      events := if uid in frozenEvents then frozenEvents[uid] else map[];
      frozenEvents := frozenEvents - {uid};
    }

    method GetFrozenEventsMapByPid(pid: int) returns (events: map<Listener, seq<Event>>)
      modifies this
      ensures Value() == Apply(old(Value()), ThawPid(pid))
      ensures forall l :: BufferOf(map[pid := events], pid, l) == BufferOf(old(frozenEventsMap), pid, l)
    {
      events := if pid in frozenEventsMap then frozenEventsMap[pid] else map[];
      frozenEventsMap := frozenEventsMap - {pid};
    }

    /** What an unsubscription does to both maps. */
    method RemoveFrozenEventsBySubscriber(uid: int, pid: int, l: Listener)
      modifies this
      ensures Value() == Apply(old(Value()), Leave(uid, pid, l))
    {
      if uid in frozenEvents && l in frozenEvents[uid] {
        frozenEvents := frozenEvents[uid := frozenEvents[uid] - {l}];
      }
      if pid in frozenEventsMap && l in frozenEventsMap[pid] {
        frozenEventsMap := frozenEventsMap[pid := frozenEventsMap[pid] - {l}];
      }
    }
  }

  // ---- What a notification amounts to

  /** The receivers behind the pointers that are not null, in order. */
  function NonNull(receivers: seq<Pointer>): seq<Target> {
    if receivers == [] then []
    else NonNull(receivers[..|receivers| - 1])
         + (if receivers[|receivers| - 1].Some? then [receivers[|receivers| - 1].value] else [])
  }

  function DeliveryOf(t: Target): DeliveryState {
    if t.isFreeze || !t.alive then SKIPPED else DELIVERED
  }

  /** The operations on the two maps: one for each frozen receiver, in order. */
  function HoldsFor(targets: seq<Target>, e: Event): seq<Operation> {
    if targets == [] then []
    else
      var t := targets[|targets| - 1];
      HoldsFor(targets[..|targets| - 1], e) + (if t.isFreeze then [Hold(t.uid, t.pid, t.listener, e)] else [])
  }

  function ApplyAll(s: State, ops: seq<Operation>): State {
    if ops == [] then s else Apply(ApplyAll(s, ops[..|ops| - 1]), ops[|ops| - 1])
  }

  /** What came of a receiver. */
  datatype Fate = Reached | Failed | Frozen

  function FateOf(t: Target): Fate {
    if t.isFreeze then Frozen else if t.alive && t.ok then Reached else Failed
  }

  function CountOf(targets: seq<Target>, fate: Fate): nat {
    if targets == [] then 0
    else CountOf(targets[..|targets| - 1], fate) + (if FateOf(targets[|targets| - 1]) == fate then 1 else 0)
  }

  lemma NonNullNext(receivers: seq<Pointer>, i: nat)
    requires i < |receivers|
    ensures NonNull(receivers[..i + 1]) ==
              NonNull(receivers[..i]) + (if receivers[i].Some? then [receivers[i].value] else [])
    ensures |NonNull(receivers[..i])| <= i
  {
    assert receivers[..i + 1][..i] == receivers[..i];
    NonNullLength(receivers[..i]);
  }

  lemma {:induction false} NonNullLength(receivers: seq<Pointer>)
    ensures |NonNull(receivers)| <= |receivers|
  {
    if receivers != [] {
      NonNullLength(receivers[..|receivers| - 1]);
    }
  }

  lemma NextTarget(targets: seq<Target>, t: Target, e: Event, s: State)
    ensures forall fate :: CountOf(targets + [t], fate) == CountOf(targets, fate) + (if FateOf(t) == fate then 1 else 0)
    ensures ApplyAll(s, HoldsFor(targets + [t], e)) ==
              if t.isFreeze then Apply(ApplyAll(s, HoldsFor(targets, e)), Hold(t.uid, t.pid, t.listener, e))
              else ApplyAll(s, HoldsFor(targets, e))
  {
    assert (targets + [t])[..|targets|] == targets;
    var ops := HoldsFor(targets, e);
    if t.isFreeze {
      var op := Hold(t.uid, t.pid, t.listener, e);
      assert HoldsFor(targets + [t], e) == ops + [op] && (ops + [op])[..|ops|] == ops;
    } else {
      assert HoldsFor(targets + [t], e) == ops + [] == ops;
    }
  }

  class UnorderedRecord {
    var receivers: seq<Pointer>
    var nextReceiver: nat
    var deliveryState: seq<DeliveryState>
    var state: EventState
    var event: Event

    /** Every receiver has a state, pending at first. */
    constructor (receivers: seq<Pointer>, event: Event)
      ensures this.receivers == receivers && this.event == event && nextReceiver == 0
      ensures deliveryState == seq(|receivers|, _ => PENDING)
    {
      this.receivers, this.event, nextReceiver, state := receivers, event, 0, IDLE;
      deliveryState := seq(|receivers|, _ => PENDING);
    }

    /** HandleFrozenUnorderedSubscriber. */
    method HandleFrozen(t: Target, index: nat, store: Store)
      requires index < |deliveryState|
      modifies this`deliveryState, store
      ensures deliveryState == old(deliveryState)[index := SKIPPED]
      ensures store.Value() == Apply(old(store.Value()), Hold(t.uid, t.pid, t.listener, event))
    {
      deliveryState := deliveryState[index := SKIPPED];
      store.InsertFrozenEvents(Some(t), event);
      store.InsertFrozenEventsMap(Some(t), event);
    }

    /** NotifySingleUnorderedSubscriber; the three results say which counter goes up. */
    method NotifySingle(t: Target, index: nat, store: Store) returns (succ: nat, fail: nat, freeze: nat)
      requires index < |deliveryState|
      modifies this`deliveryState, this`state, store
      ensures deliveryState == old(deliveryState)[index := DeliveryOf(t)]
      ensures store.Value() ==
                if t.isFreeze then Apply(old(store.Value()), Hold(t.uid, t.pid, t.listener, event))
                else old(store.Value())
      ensures (succ, fail, freeze) == if t.isFreeze then (0, 0, 1) else if t.alive && t.ok then (1, 0, 0) else (0, 1, 0)
    {
      succ, fail, freeze := 0, 0, 0;
      if t.isFreeze {
        HandleFrozen(t, index, store);
        freeze := 1;
        return;
      }
      if !t.alive {
        deliveryState := deliveryState[index := SKIPPED];
        fail := 1;
        return;
      }
      deliveryState := deliveryState[index := DELIVERED];
      state := RECEIVING;
      if !t.ok {
        state := RECEIVED;  // the number of DeliveryState::SKIPPED
        fail := 1;
        return;
      }
      state := RECEIVED;
      succ := 1;
    }

    /** The receivers in `told` have had their turn, in this order, and no other has. */
    ghost predicate Told(told: seq<Target>)
      reads this
    {
      && nextReceiver == |told| <= |deliveryState|
      && forall k :: 0 <= k < |deliveryState| ==>
           deliveryState[k] == if k < |told| then DeliveryOf(told[k]) else PENDING
    }

    /** The turn of the next receiver that is not null. */
    method NotifyNext(t: Target, store: Store, ghost told: seq<Target>) returns (succ: nat, fail: nat, freeze: nat)
      requires Told(told) && |told| < |deliveryState|
      modifies this`deliveryState, this`state, this`nextReceiver, store
      ensures Told(told + [t]) && |deliveryState| == |old(deliveryState)|
      ensures store.Value() == if t.isFreeze then Apply(old(store.Value()), Hold(t.uid, t.pid, t.listener, event))
                               else old(store.Value())
      ensures succ + fail + freeze == 1
      ensures (succ == 1 <==> FateOf(t) == Reached) && (freeze == 1 <==> FateOf(t) == Frozen)
    {
      var index := nextReceiver;
      nextReceiver := nextReceiver + 1;
      succ, fail, freeze := NotifySingle(t, index, store);
    }

    /** Where the notification stands after the first `i` receivers, for maps that were `before` at its start. */
    ghost predicate Notified(i: nat, store: Store, before: State, succCnt: nat, failCnt: nat, freezeCnt: nat)
      reads this, store
    {
      && i <= |receivers| == |deliveryState|
      && Told(NonNull(receivers[..i]))
      && succCnt + failCnt + freezeCnt == i
      && succCnt == CountOf(NonNull(receivers[..i]), Reached) && freezeCnt == CountOf(NonNull(receivers[..i]), Frozen)
      && store.Value() == ApplyAll(before, HoldsFor(NonNull(receivers[..i]), event))
    }

    /** The receiver behind the `i`-th pointer, if there is one, has its turn. */
    method NotifyAt(i: nat, store: Store, ghost before: State, succCnt: nat, failCnt: nat, freezeCnt: nat)
      returns (succ: nat, fail: nat, freeze: nat)
      requires i < |receivers| && Notified(i, store, before, succCnt, failCnt, freezeCnt)
      modifies this`deliveryState, this`state, this`nextReceiver, store
      ensures Notified(i + 1, store, before, succCnt + succ, failCnt + fail, freezeCnt + freeze)
    {
      NonNullNext(receivers, i);
      ghost var told := NonNull(receivers[..i]);
      var vec := receivers[i];
      if vec == None {
        assert told + [] == told;
        return 0, 1, 0;
      }
      NextTarget(told, vec.value, event, before);
      succ, fail, freeze := NotifyNext(vec.value, store, told);
    }

    /** Every receiver is counted once: reached, failed (null pointers among them) or frozen. The delivery states
        are those of the receivers that are not null, in order, and exactly the frozen ones are put aside, in
        order, in both maps. */
    method NotifyUnorderedEventLocked(store: Store) returns (succCnt: nat, failCnt: nat, freezeCnt: nat)
      requires nextReceiver == 0 && deliveryState == seq(|receivers|, _ => PENDING)
      modifies this`deliveryState, this`state, this`nextReceiver, store
      ensures succCnt + failCnt + freezeCnt == |receivers|
      ensures succCnt == CountOf(NonNull(receivers), Reached) && freezeCnt == CountOf(NonNull(receivers), Frozen)
      ensures Told(NonNull(receivers)) && |NonNull(receivers)| <= |receivers| == |deliveryState|
      ensures store.Value() == ApplyAll(old(store.Value()), HoldsFor(NonNull(receivers), event))
    {
      succCnt, failCnt, freezeCnt := 0, 0, 0;
      for i := 0 to |receivers|
        invariant Notified(i, store, old(store.Value()), succCnt, failCnt, freezeCnt)
      {
        var succ, fail, freeze := NotifyAt(i, store, old(store.Value()), succCnt, failCnt, freezeCnt);
        succCnt, failCnt, freezeCnt := succCnt + succ, failCnt + fail, freezeCnt + freeze;
      }
      assert receivers[..|receivers|] == receivers;
      NonNullLength(receivers);
    }
  }

  // ---- Which receiver a delivery state belongs to

  /** No null pointer comes before one that is not null. */
  predicate NullsLast(receivers: seq<Pointer>) {
    forall i, j :: 0 <= i < j < |receivers| && receivers[j].Some? ==> receivers[i].Some?
  }

  lemma {:induction false} NonNullAt(receivers: seq<Pointer>, i: nat)
    requires i < |receivers| && receivers[i].Some?
    ensures |NonNull(receivers[..i])| < |NonNull(receivers)|
    ensures NonNull(receivers)[|NonNull(receivers[..i])|] == receivers[i].value
  {
    var n := |receivers| - 1;
    if i < n {
      NonNullAt(receivers[..n], i);
      assert receivers[..n][..i] == receivers[..i];
    }
  }

  /** A null pointer takes no index, so the states line up with the receivers exactly when the nulls come last. */
  lemma StatesLineUp(receivers: seq<Pointer>)
    ensures NullsLast(receivers) <==>
              forall i :: 0 <= i < |receivers| && receivers[i].Some? ==> |NonNull(receivers[..i])| == i
  {
    if NullsLast(receivers) {
      forall i | 0 <= i < |receivers| && receivers[i].Some? ensures |NonNull(receivers[..i])| == i {
        NoneMissing(receivers[..i]);
      }
    } else {
      var i, j :| 0 <= i < j < |receivers| && receivers[j].Some? && !receivers[i].Some?;
      OneMissing(receivers[..j], i);
      assert |NonNull(receivers[..j])| < j;
    }
  }

  lemma {:induction false} NoneMissing(receivers: seq<Pointer>)
    requires forall p :: p in receivers ==> p.Some?
    ensures |NonNull(receivers)| == |receivers|
  {
    if receivers != [] {
      NoneMissing(receivers[..|receivers| - 1]);
    }
  }

  lemma {:induction false} OneMissing(receivers: seq<Pointer>, i: nat)
    requires i < |receivers| && receivers[i] == None
    ensures |NonNull(receivers)| < |receivers|
  {
    var n := |receivers| - 1;
    NonNullLength(receivers[..n]);
    if i < n {
      OneMissing(receivers[..n], i);
    }
  }
}
