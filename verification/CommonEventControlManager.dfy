/** CommonEventControlManager itself: records are heap objects that the queue points to, and each method
    changes them in place. Every method is proved against the dispatcher's step functions, with the other
    queue not running in between; OrderedDispatch says what interleaving adds. */
module CommonEventControlManager {
  import opened Listeners
  import opened Wrappers
  import opened OrderedRecords
  import opened OrderedDispatch
  import opened OrderedProgress
  import opened OrderedTasks

  class OrderedEventRecord {
    var receivers: seq<Receiver>
    var resultTo: Option<Listener>
    var state: EventState
    var nextReceiver: nat
    var curReceiver: Option<Listener>
    var deliveryState: seq<DeliveryState>
    var resultAbort: bool
    var result: Payload
    var dispatchTime: nat
    var receiverTime: nat

    function Value(): Record
      reads this
    {
      Record(receivers, resultTo, state, nextReceiver, curReceiver, deliveryState, resultAbort, result,
             dispatchTime, receiverTime)
    }

    constructor (receivers: seq<Receiver>, resultTo: Option<Listener>, result: Payload)
      ensures Value() == NewRecord(receivers, resultTo, result)
    {
      this.receivers, this.resultTo, this.result := receivers, resultTo, result;
      state, nextReceiver, curReceiver := IDLE, 0, None;
      resultAbort, dispatchTime, receiverTime := false, 0, 0;
      deliveryState := [];
      new;
      for i := 0 to |receivers|
        invariant |deliveryState| == i && forall k :: 0 <= k < i ==> deliveryState[k] == PENDING
        invariant Value() == NewRecord(receivers, resultTo, result).(deliveryState := deliveryState)
      {
        deliveryState := deliveryState + [PENDING];
      }
      assert deliveryState == seq(|receivers|, _ => PENDING);
    }

    method PrepareNextReceiverRecord(now: nat) returns (recIdx: nat)
      modifies this
      ensures recIdx == old(nextReceiver)
      ensures Value() == PrepareNextReceiver(old(Value()), now)
    {
      recIdx := nextReceiver;
      nextReceiver := nextReceiver + 1;
      receiverTime := now;
      if recIdx == 0 {
        dispatchTime := receiverTime;
      }
    }

    method MarkDelivery(index: nat, delivery: DeliveryState)
      modifies this`deliveryState
      ensures deliveryState == Mark(old(deliveryState), index, delivery)
    {
      if index < |deliveryState| {
        deliveryState := deliveryState[index := delivery];
      }
    }

    method NotifyFrozenSubscriber(index: nat)
      modifies this
      ensures Value() == NotifyFrozen(old(Value()), index)
    {
      MarkDelivery(index, SKIPPED);
      curReceiver := None;
    }

    method PrepareOrderedNotify(index: nat, proxy: bool)
      requires index < |receivers|
      modifies this
      ensures Value() == PrepareNotify(old(Value()), index, proxy)
    {
      MarkDelivery(index, DELIVERED);
      curReceiver := Some(receivers[index].listener);
      if !proxy {
        curReceiver := None;
        return;
      }
      state := RECEIVING;
    }

    method HandleOrderedNotifyResult(ok: bool)
      modifies this
      ensures Value() == HandleResult(old(Value()), ok)
    {
      if !ok {
        state := RECEIVED;  // the number of DeliveryState::SKIPPED
        curReceiver := None;
        return;
      }
      state := RECEIVED;
    }

    /** The locked part of FinishReceiver. */
    method FinishReceiver(code: Payload, abort: bool)
      modifies this
      ensures Value() == Finish(old(Value()), code, abort)
    {
      state := IDLE;
      curReceiver := None;
      result := code;
      resultAbort := abort;
    }

    method HandleTimeoutReceiver(now: nat)
      modifies this
      ensures Value() == HandleTimeout(old(Value()), now)
    {
      receiverTime := now;
      if nextReceiver > 0 {
        MarkDelivery(nextReceiver - 1, TIMEDOUT);
      }
      state := IDLE;
      curReceiver := None;
    }
  }

  lemma Inserted<T>(s: seq<T>, k: nat, x: T)
    requires k <= |s|
    ensures multiset(s[..k] + [x] + s[k..]) == multiset(s) + multiset{x}
  {
    assert s == s[..k] + s[k..];
  }

  lemma BothParts<T>(a: seq<T>, b: seq<T>)
    ensures a <= a + b && (forall x :: x in a ==> x in a + b) && (forall x :: x in b ==> x in a + b)
  {
  }

  lemma MoveFront<T>(a: seq<T>, b: seq<T>)
    requires b != []
    ensures a + b == (a + [b[0]]) + b[1..]
  {
  }

  // ---- The manager

  class Manager {
    var orderedEventQueue: seq<OrderedEventRecord>
    var pendingTimeoutMessage: bool
    var scheduled: bool
    // The tasks of the serial queue that runs ProcessNextOrderedEvent and the timeout, and its clock.
    var timer: Option<nat>
    var readyTrue: nat
    var readyFalse: nat
    var now: nat
    // Every record ever enqueued, in order, and what an observer has seen.
    ghost var enqueued: seq<OrderedEventRecord>
    ghost var history: seq<Event>

    ghost predicate Valid()
      reads this
    {
      && |orderedEventQueue| <= |enqueued|
      && orderedEventQueue == enqueued[|enqueued| - |orderedEventQueue|..]
      && forall i, j :: 0 <= i < j < |enqueued| ==> enqueued[i] != enqueued[j]
    }

    ghost function Records(): (records: seq<Record>)
      reads this, enqueued
      ensures |records| == |enqueued|
      ensures forall i :: 0 <= i < |enqueued| ==> records[i] == enqueued[i].Value()
    {
      seq(|enqueued|, i requires 0 <= i < |enqueued| reads this, enqueued => enqueued[i].Value())
    }

    ghost function Queue(): (queue: seq<nat>)
      requires Valid()
      reads this
      ensures |queue| == |orderedEventQueue|
      ensures forall i :: 0 <= i < |queue| ==> queue[i] == |enqueued| - |orderedEventQueue| + i
    {
      var head: nat := |enqueued| - |orderedEventQueue|;
      seq(|orderedEventQueue|, (i: nat) => head + i)
    }

    ghost function State(): Core
      requires Valid()
      reads this, enqueued
    {
      Core(Records(), Queue(), scheduled, pendingTimeoutMessage, timer, readyTrue, readyFalse, now, history)
    }

    /** The pointer the model uses for a record. */
    ghost predicate Names(id: nat, sp: OrderedEventRecord)
      reads this
    {
      id < |enqueued| && enqueued[id] == sp
    }

    /** Only the record `sp` points to has changed since the model's state was `c`. */
    lemma RecordChanged(c: Core, sp: OrderedEventRecord, id: nat)
      requires Valid() && Names(id, sp) && c == State().(records := c.records)
      requires |c.records| == |enqueued|
      requires forall i :: 0 <= i < |enqueued| && i != id ==> enqueued[i].Value() == c.records[i]
      ensures State() == c.(records := Put(c.records, id, sp.Value()))
    {
      assert Records() == Put(c.records, id, sp.Value());
    }

    /** An observer sees something. */
    ghost method LogEvent(e: Event)
      requires Valid()
      modifies this`history
      ensures Valid() && State() == Log(old(State()), e)
    {
      ghost var before := State();
      history := history + [e];
      assert Records() == before.records && Queue() == before.queue;
    }

    constructor (now: nat)
      ensures Valid() && State() == Init(now).core
    {
      orderedEventQueue, enqueued, history := [], [], [];
      pendingTimeoutMessage, scheduled, timer := false, false, None;
      readyTrue, readyFalse := 0, 0;
      this.now := now;
    }

    method EnqueueOrderedRecord(sp: OrderedEventRecord)
      requires Valid() && sp !in enqueued
      modifies this
      ensures Valid() && State() == Enqueue(old(State()), old(sp.Value()))
      ensures enqueued == old(enqueued) + [sp]
    {
      ghost var before := State();
      orderedEventQueue := orderedEventQueue + [sp];
      enqueued := enqueued + [sp];
      history := history + [Enqueued(|enqueued| - 1, sp.receivers, sp.resultTo, sp.result)];
      assert Records() == before.records + [sp.Value()];
      assert Queue() == before.queue + [|before.records|];
    }

    method ScheduleOrderedCommonEvent()
      requires Valid()
      modifies this`scheduled, this`readyTrue
      ensures Valid() && State() == ScheduleNow(old(State()))
    {
      if scheduled {
        return;
      }
      scheduled := true;
      readyTrue := readyTrue + 1;
    }

    method SetTimeout()
      requires Valid()
      modifies this`pendingTimeoutMessage, this`timer
      ensures Valid() && State() == OrderedDispatch.SetTimeout(old(State()))
    {
      if !pendingTimeoutMessage {
        pendingTimeoutMessage := true;
        timer := Some(now + TIMEOUT);
      }
    }

    method CancelTimeout()
      requires Valid()
      modifies this`pendingTimeoutMessage, this`timer
      ensures Valid() && State() == OrderedDispatch.CancelTimeout(old(State()))
    {
      if pendingTimeoutMessage {
        pendingTimeoutMessage := false;
        timer := None;
      }
    }

    static method InsertByPriority(sorted: seq<Receiver>, r: Receiver) returns (longer: seq<Receiver>)
      requires ByPriority(sorted)
      ensures ByPriority(longer) && multiset(longer) == multiset(sorted) + multiset{r}
    {
      var k := 0;
      while k < |sorted| && sorted[k].priority >= r.priority
        invariant 0 <= k <= |sorted|
        invariant forall j :: 0 <= j < k ==> sorted[j].priority >= r.priority
      {
        k := k + 1;
      }
      longer := sorted[..k] + [r] + sorted[k..];
      Inserted(sorted, k, r);
    }

    /** std::sort by descending priority; equal priorities may end in any order. */
    static method SortByPriority(subscribers: seq<Receiver>) returns (sorted: seq<Receiver>)
      ensures ByPriority(sorted) && multiset(sorted) == multiset(subscribers)
    {
      sorted := [];
      for i := 0 to |subscribers|
        invariant ByPriority(sorted) && multiset(sorted) == multiset(subscribers[..i])
      {
        sorted := InsertByPriority(sorted, subscribers[i]);
        assert subscribers[..i + 1] == subscribers[..i] + [subscribers[i]];
      }
      assert subscribers[..|subscribers|] == subscribers;
    }

    /** Publish an ordered event to its matched subscribers. */
    method ProcessOrderedEvent(subscribers: seq<Receiver>, resultTo: Option<Listener>, result: Payload)
        returns (receivers: seq<Receiver>)
      requires Valid()
      modifies this
      ensures ByPriority(receivers) && multiset(receivers) == multiset(subscribers)
      ensures Valid() && State() == ScheduleNow(Enqueue(old(State()), NewRecord(receivers, resultTo, result)))
    {
      receivers := SortByPriority(subscribers);
      var sp := new OrderedEventRecord(receivers, resultTo, result);
      ghost var before := State();
      EnqueueOrderedRecord(sp);
      ScheduleOrderedCommonEvent();
    }

    method GetMatchingOrderedReceiver(proxy: Listener) returns (sp: OrderedEventRecord?)
      requires Valid()
      ensures match MatchFront(State(), proxy)
              case None => sp == null
              case Some(id) => sp != null && Names(id, sp)
    {
      if orderedEventQueue != [] && orderedEventQueue[0].curReceiver == Some(proxy) {
        return orderedEventQueue[0];
      }
      return null;
    }

    /** FinishReceiver and FinishReceiverAction: true when another ProcessNextOrderedEvent was submitted. */
    method FinishReceiverAction(sp: OrderedEventRecord, result: Payload, abort: bool,
                                ghost id: nat) returns (doNext: bool)
      requires Valid() && Names(id, sp)
      modifies this`readyFalse, this`history, sp
      ensures Valid() && doNext == (old(sp.state) == RECEIVED)
      ensures var c := FinishRecord(old(State()), id, FinishCall(0, result, abort, false));
        State() == if doNext then c.(readyFalse := c.readyFalse + 1) else c
    {
      ghost var before := State();
      var state := sp.state;
      sp.FinishReceiver(result, abort);
      RecordChanged(before, sp, id);
      LogEvent(Finished(id, result, abort));
      doNext := state == RECEIVED;
      if doNext {
        SubmitNextOrderedEvent();
      }
    }

    method SubmitNextOrderedEvent()
      requires Valid()
      modifies this`readyFalse
      ensures Valid() && State() == old(State()).(readyFalse := old(State()).readyFalse + 1)
    {
      ghost var before := State();
      readyFalse := readyFalse + 1;
      assert Records() == before.records && Queue() == before.queue;
    }

    /** The two callers of the finish: a receiver's own FinishReceiver, and UnsubscribeCommonEvent, which
        repeats the record's values. */
    method Finish(call: FinishCall)
      requires Valid()
      modifies this`readyFalse, this`history, orderedEventQueue
      ensures Valid() && State() == FinishNow(old(State()), call)
    {
      var sp := GetMatchingOrderedReceiver(call.proxy);
      if sp != null {
        ghost var id := State().queue[0];
        if call.unsubscribe {
          var _ := FinishReceiverAction(sp, sp.result, sp.resultAbort, id);
        } else {
          var _ := FinishReceiverAction(sp, call.result, call.abort, id);
        }
      }
    }

    method CheckTimeoutForceReceive(sp: OrderedEventRecord, ghost id: nat) returns (forceReceive: bool)
      requires Valid() && Names(id, sp) && orderedEventQueue != [] && sp == orderedEventQueue[0]
      modifies this`history, sp
      ensures Valid() && State() == ForceFront(old(State())) && forceReceive == Overdue(old(sp.Value()), now)
    {
      assert State().queue[0] == id && At(State().records, id) == sp.Value();
      var numReceivers := |sp.receivers|;
      forceReceive := false;
      if sp.dispatchTime > 0 {
        if numReceivers > 0 && now > sp.dispatchTime + DOUBLE * TIMEOUT * numReceivers {
          ForceReceive(sp, id);
          forceReceive := true;
        }
      }
    }

    method ForceReceive(sp: OrderedEventRecord, ghost id: nat)
      requires Valid() && Names(id, sp)
      modifies this`history, sp
      ensures Valid()
      ensures var c, r := old(State()), HandleTimeout(old(sp.Value()), now);
        State() == Log(c.(records := Put(c.records, id, r)), Forced(id, now))
    {
      ghost var before := State();
      sp.HandleTimeoutReceiver(now);
      sp.state := IDLE;
      RecordChanged(before, sp, id);
      LogEvent(Forced(id, now));
    }

    method RemoveFrontRecord(ghost overdue: bool)
      requires Valid() && orderedEventQueue != []
      modifies this`pendingTimeoutMessage, this`timer, this`orderedEventQueue, this`history
      ensures Valid() && State() == RemoveFront(old(State()), overdue)
      ensures orderedEventQueue == old(orderedEventQueue)[1..]
    {
      ghost var r := orderedEventQueue[0].Value();
      ghost var id := Queue()[0];
      assert At(Records(), id) == r;
      CancelTimeout();
      EraseFront();
      LogEvent(Removed(id, r.nextReceiver, |r.receivers|, r.resultAbort, overdue, now));
    }

    method EraseFront()
      requires Valid() && orderedEventQueue != []
      modifies this`orderedEventQueue
      ensures Valid() && State() == old(State()).(queue := old(State()).queue[1..])
      ensures orderedEventQueue == old(orderedEventQueue)[1..]
    {
      ghost var before := State();
      orderedEventQueue := orderedEventQueue[1..];
      assert Records() == before.records;
      assert Queue() == before.queue[1..];
    }

    /** One round of the loop in ProcessOrderedEventQueueLocked. */
    method ExamineFront() returns (sp: OrderedEventRecord, shouldRemove: bool, ghost id: nat)
      requires Valid() && orderedEventQueue != []
      modifies this`pendingTimeoutMessage, this`timer, this`orderedEventQueue, this`history, orderedEventQueue[0]
      ensures Valid() && enqueued == old(enqueued) && Names(id, sp) && sp == old(orderedEventQueue)[0]
      ensures DrainQueue(old(State())) ==
              if shouldRemove then
                var rest := DrainQueue(State());
                Drained(rest.core, [id] + rest.removed, rest.next)
              else Drained(State(), [], if sp.state == IDLE then Some(id) else None)
      ensures orderedEventQueue == if shouldRemove then old(orderedEventQueue)[1..] else old(orderedEventQueue)
    {
      ghost var before := State();
      sp := orderedEventQueue[0];
      id := Queue()[0];
      var forceReceive := CheckTimeoutForceReceive(sp, id);
      assert At(State().records, id) == sp.Value();
      assert State() == ForceFront(before);
      if sp.state != IDLE {
        return sp, false, id;
      }
      var numReceivers := |sp.receivers|;
      shouldRemove := sp.receivers == [] || sp.nextReceiver >= numReceivers || sp.resultAbort || forceReceive;
      if shouldRemove {
        RemoveFrontRecord(forceReceive);
      }
    }

    /** Names that a run of records has in the model. */
    ghost predicate NamesAll(ids: seq<nat>, records: seq<OrderedEventRecord>)
      reads this
    {
      |ids| == |records| && forall i :: 0 <= i < |ids| ==> Names(ids[i], records[i])
    }

    /** Where the loop of ProcessOrderedEventQueueLocked stands, for a call that began in `c` with `queue`. */
    ghost predicate Sweeping(c: Core, queue: seq<OrderedEventRecord>, sp: OrderedEventRecord?,
                             removed: seq<OrderedEventRecord>, more: bool)
      requires Valid()
      reads this, enqueued
    {
      && queue == removed + orderedEventQueue
      && (more ==>
            && sp == null
            && DrainQueue(State()).core == DrainQueue(c).core && DrainQueue(State()).next == DrainQueue(c).next)
      && (!more ==>
            && State() == DrainQueue(c).core
            && match DrainQueue(c).next
               case None => sp == null
               case Some(id) => sp != null && Names(id, sp) && orderedEventQueue != [] && orderedEventQueue[0] == sp)
    }

    lemma NothingSwept()
      requires Valid()
      ensures Sweeping(State(), orderedEventQueue, null, [], true)
    {
      assert [] + orderedEventQueue == orderedEventQueue;
    }

    method Sweep(ghost c: Core, ghost queue: seq<OrderedEventRecord>, removed: seq<OrderedEventRecord>)
        returns (sp: OrderedEventRecord?, removed': seq<OrderedEventRecord>, more: bool)
      requires Valid() && Sweeping(c, queue, null, removed, true)
      modifies this`pendingTimeoutMessage, this`timer, this`orderedEventQueue, this`history, orderedEventQueue
      ensures Valid() && enqueued == old(enqueued) && Sweeping(c, queue, sp, removed', more)
      ensures |orderedEventQueue| <= |old(orderedEventQueue)|
      ensures more ==> |orderedEventQueue| < |old(orderedEventQueue)|
    {
      sp, removed', more := null, removed, false;
      if orderedEventQueue == [] {
        return;
      }
      MoveFront(removed, orderedEventQueue);
      var front, shouldRemove, id := ExamineFront();
      if shouldRemove {
        removed', more := removed + [front], true;
      } else if front.state == IDLE {
        sp := front;
      }
    }

    /** The record to go on with, if any, and the records taken off the front of the queue. */
    method ProcessOrderedEventQueueLocked() returns (sp: OrderedEventRecord?, removedRecords: seq<OrderedEventRecord>)
      requires Valid()
      modifies this`pendingTimeoutMessage, this`timer, this`orderedEventQueue, this`history, orderedEventQueue
      ensures Valid() && enqueued == old(enqueued) && State() == DrainQueue(old(State())).core
      ensures old(orderedEventQueue) == removedRecords + orderedEventQueue
      ensures match DrainQueue(old(State())).next
              case None => sp == null
              case Some(id) => sp != null && Names(id, sp) && orderedEventQueue != [] && orderedEventQueue[0] == sp
    {
      ghost var c, queue := State(), orderedEventQueue;
      sp, removedRecords := null, [];
      var more := true;
      NothingSwept();
      while more
        invariant Valid() && enqueued == old(enqueued)
        invariant Sweeping(c, queue, sp, removedRecords, more)
        decreases |orderedEventQueue|, more
      {
        BothParts(removedRecords, orderedEventQueue);
        sp, removedRecords, more := Sweep(c, queue, removedRecords);
      }
    }

    /** The records popped are named by the pointers popped. */
    lemma PoppedNames(c: Core, queue: seq<OrderedEventRecord>, removed: seq<OrderedEventRecord>)
      requires QueueShape(c) && |c.records| == |enqueued| && |queue| == |c.queue| && queue == enqueued[Head(c)..]
      requires removed <= queue && |DrainQueue(c).core.queue| == |queue| - |removed|
      ensures NamesAll(DrainQueue(c).removed, removed)
    {
      DrainPops(c);
      forall i | 0 <= i < |removed| ensures Names(DrainQueue(c).removed[i], removed[i]) {
        assert DrainQueue(c).removed[i] == c.queue[i];
        assert removed[i] == queue[i] == enqueued[Head(c) + i];
      }
    }

    method HandleFinalSubscriber(sp: OrderedEventRecord, proxy: bool, ghost id: nat)
      requires Valid() && Names(id, sp)
      modifies this`history, sp
      ensures Valid() && State() == NotifyFinalSubscriber(old(State()), id, proxy)
    {
      ghost var before := State();
      assert At(State().records, id) == sp.Value();
      match sp.resultTo {
        case None =>
        case Some(listener) =>
          if !proxy {
            LogEvent(FinalLost(id));
          } else {
            sp.resultTo := None;
            RecordChanged(before, sp, id);
            LogEvent(Final(id, listener, sp.result));
          }
      }
    }

    method HandleFinalSubscribers(removed: seq<OrderedEventRecord>, alive: nat -> bool, ghost ids: seq<nat>)
      requires Valid() && NamesAll(ids, removed)
      modifies this`history, removed
      ensures Valid() && State() == TellFinals(old(State()), ids, alive, 0) && enqueued == old(enqueued)
    {
      for i := 0 to |removed|
        invariant Valid() && enqueued == old(enqueued)
        invariant TellFinals(old(State()), ids, alive, 0) == TellFinals(State(), ids[i..], alive, i)
      {
        assert Names(ids[i], removed[i]);
        HandleFinalSubscriber(removed[i], alive(i), ids[i]);
        assert ids[i..][0] == ids[i] && ids[i..][1..] == ids[i + 1..];
      }
    }

    method PrepareAndArm(sp: OrderedEventRecord, ghost id: nat) returns (recIdx: nat)
      requires Valid() && Names(id, sp)
      modifies this`pendingTimeoutMessage, this`timer, this`history, sp
      ensures Valid() && recIdx == old(sp.nextReceiver) && State() == PrepareFront(old(State()), id)
    {
      ghost var before := State();
      recIdx := sp.PrepareNextReceiverRecord(now);
      RecordChanged(before, sp, id);
      LogEvent(Turn(id, recIdx, now));
      if !pendingTimeoutMessage {
        SetTimeout();
      }
    }

    method NotifyOrderedEvent(sp: OrderedEventRecord, index: nat, w: World, ghost id: nat)
      requires Valid() && Names(id, sp)
      modifies this`history, sp
      ensures Valid() && State() == NotifyNow(old(State()), id, index, w)
    {
      ghost var before := State();
      if index >= |sp.receivers| {
        return;
      }
      if w.frozen {
        sp.NotifyFrozenSubscriber(index);
      } else {
        sp.PrepareOrderedNotify(index, w.alive);
      }
      RecordChanged(before, sp, id);
      if !w.frozen && w.alive {
        CallReceiver(sp, index, w.ok, id);
      }
    }

    /** The call itself, and what its result leaves. */
    method CallReceiver(sp: OrderedEventRecord, index: nat, ok: bool, ghost id: nat)
      requires Valid() && Names(id, sp) && index < |sp.receivers|
      modifies this`history, sp
      ensures Valid()
      ensures var c := old(State());
        State() == ReceiverResult(OrderedDispatch.CallReceiver(c, id, index), id, ok)
    {
      ghost var before := State();
      ghost var sent := Sent(id, index, sp.receivers[index].listener, sp.result);
      sp.HandleOrderedNotifyResult(ok);
      RecordChanged(before, sp, id);
      LogEvent(sent);
    }

    method CheckReceiver(sp: OrderedEventRecord, ghost id: nat)
      requires Valid() && Names(id, sp)
      modifies this`scheduled, this`readyTrue, sp
      ensures Valid() && State() == CheckNow(old(State()), id)
    {
      ghost var before := State();
      if sp.curReceiver == None {
        sp.state := IDLE;
        RecordChanged(before, sp, id);
        ScheduleOrderedCommonEvent();
      }
    }

    /** The turn of the next receiver of the front record. */
    method TakeTurn(sp: OrderedEventRecord, w: World, ghost id: nat)
      requires Valid() && Names(id, sp)
      modifies this`pendingTimeoutMessage, this`timer, this`history, this`scheduled, this`readyTrue, sp
      ensures Valid() && State() == TurnNow(old(State()), id, w)
    {
      var recIdx := PrepareAndArm(sp, id);
      NotifyOrderedEvent(sp, recIdx, w, id);
      CheckReceiver(sp, id);
    }

    /** The final subscribers of the records popped by a sweep that began in `c` with `queue`. */
    method TellRemoved(removed: seq<OrderedEventRecord>, alive: nat -> bool, ghost c: Core,
                       ghost queue: seq<OrderedEventRecord>)
      requires Valid() && QueueShape(c) && |c.records| == |enqueued| && |queue| == |c.queue|
      requires queue == enqueued[Head(c)..] && removed <= queue && |DrainQueue(c).core.queue| == |queue| - |removed|
      modifies this`history, removed
      ensures Valid() && State() == TellFinals(old(State()), DrainQueue(c).removed, alive, 0)
      ensures enqueued == old(enqueued)
    {
      PoppedNames(c, queue, removed);
      HandleFinalSubscribers(removed, alive, DrainQueue(c).removed);
    }

    /** The sweep of the queue and its final subscribers. */
    method SweepQueue(alive: nat -> bool) returns (sp: OrderedEventRecord?)
      requires Valid()
      modifies this`pendingTimeoutMessage, this`timer, this`orderedEventQueue, this`history, orderedEventQueue
      ensures Valid() && State() == SweepNow(old(State()), alive)
      ensures match DrainQueue(old(State())).next
              case None => sp == null
              case Some(id) => sp != null && Names(id, sp) && sp in old(orderedEventQueue)
    {
      ghost var c, queue := State(), orderedEventQueue;
      var removedRecords;
      sp, removedRecords := ProcessOrderedEventQueueLocked();
      BothParts(removedRecords, orderedEventQueue);
      TellRemoved(removedRecords, alive, c, queue);
    }

    method ResetSchedule(isSendMsg: bool)
      requires Valid()
      modifies this`scheduled
      ensures Valid() && State() == if isSendMsg then old(State()).(scheduled := false) else old(State())
    {
      if isSendMsg {
        scheduled := false;
      }
    }

    method ProcessNextOrderedEvent(isSendMsg: bool, w: World)
      requires Valid()
      modifies this, orderedEventQueue
      ensures Valid() && State() == ProcessNextNow(old(State()), isSendMsg, w)
    {
      ResetSchedule(isSendMsg);
      ghost var c := State();
      var sp := SweepQueue(w.finalAlive);
      if sp == null {
        return;
      }
      ghost var id := DrainQueue(c).next.value;
      ghost var c1 := State();
      TakeTurn(sp, w, id);
      assert State() == TurnNow(c1, id, w);
    }

    method TimeOutReceiver(sp: OrderedEventRecord, at: nat, ghost id: nat)
      requires Valid() && Names(id, sp)
      modifies this`history, this`scheduled, this`readyTrue, sp
      ensures Valid() && State() == ScheduleNow(TimeOutFront(old(State()), id, at))
    {
      ghost var before := State();
      sp.HandleTimeoutReceiver(at);
      RecordChanged(before, sp, id);
      LogEvent(TimedOut(id, if sp.nextReceiver > 0 then sp.nextReceiver - 1 else 0, at));
      ScheduleOrderedCommonEvent();
    }

    method DisarmTimeout()
      requires Valid()
      modifies this`pendingTimeoutMessage, this`timer
      ensures Valid() && State() == old(State()).(pendingTimeout := false, timer := None)
    {
      pendingTimeoutMessage := false;
      timer := None;
    }

    method CurrentOrderedEventTimeout()
      requires Valid()
      modifies this, orderedEventQueue
      ensures Valid() && State() == TimeoutNow(old(State()))
    {
      DisarmTimeout();
      if orderedEventQueue == [] {
        return;
      }
      var sp := orderedEventQueue[0];
      ghost var c := State();
      assert At(c.records, c.queue[0]) == sp.Value();
      var nowSysTime := now;
      if sp.receiverTime + TIMEOUT > nowSysTime {
        SetTimeout();
      } else {
        TimeOutReceiver(sp, nowSysTime, c.queue[0]);
      }
    }
  }
}
