/** What an observer of the dispatcher can rely on: order, turns, results and aborts. Each fact is a
    condition on one event given the events before it, so it holds of every history of every run. */
module OrderedHistory {
  import opened Listeners
  import opened Wrappers
  import opened OrderedRecords
  import opened OrderedDispatch
  import opened OrderedProgress

  // ---- Readings of a history

  function Upto(n: nat): (ids: seq<nat>)
    ensures |ids| == n && forall i :: 0 <= i < n ==> ids[i] == i
  {
    if n == 0 then [] else Upto(n - 1) + [n - 1]
  }

  /** The records published, in order. */
  function Enqueues(h: seq<Event>): seq<nat> {
    if h == [] then []
    else
      var e := h[|h| - 1];
      Enqueues(h[..|h| - 1]) + (if e.Enqueued? then [e.id] else [])
  }

  /** The records that have left the queue, in order. */
  function Removals(h: seq<Event>): seq<nat> {
    if h == [] then []
    else
      var e := h[|h| - 1];
      Removals(h[..|h| - 1]) + (if e.Removed? then [e.id] else [])
  }

  /** The receivers of a record whose turn has come, in order. */
  function Turns(h: seq<Event>, id: nat): seq<nat> {
    if h == [] then []
    else
      var e := h[|h| - 1];
      Turns(h[..|h| - 1], id) + (if e.Turn? && e.id == id then [e.index] else [])
  }

  /** The result of the last finish accepted for a record, or the publisher's if there was none. */
  function LastResult(h: seq<Event>, id: nat): Payload {
    if h == [] then Payload(0, "")
    else
      var e := h[|h| - 1];
      if (e.Enqueued? || e.Finished?) && e.id == id then e.result else LastResult(h[..|h| - 1], id)
  }

  /** Whom a record was published to: its receivers and its final subscriber. */
  datatype Address = Address(receivers: seq<Receiver>, resultTo: Option<Listener>)

  function AddressOf(h: seq<Event>, id: nat): Address {
    if h == [] then Address([], None)
    else
      var e := h[|h| - 1];
      if e.Enqueued? && e.id == id then Address(e.receivers, e.resultTo) else AddressOf(h[..|h| - 1], id)
  }

  predicate Before(id: nat, index: nat, id': nat, index': nat) {
    id < id' || (id == id' && index < index')
  }

  // ---- What each event promises

  ghost predicate Justified(h: seq<Event>, e: Event) {
    match e
    case Enqueued(id, receivers, _, _) => id == |Enqueues(h)| && ByPriority(receivers)
    case Turn(id, index, _) => id == |Removals(h)| && index == |Turns(h, id)|
    case Sent(id, index, listener, result) =>
      && id == |Removals(h)|
      && index + 1 == |Turns(h, id)| <= |AddressOf(h, id).receivers|
      && listener == AddressOf(h, id).receivers[index].listener
      && result == LastResult(h, id)
      && forall k :: 0 <= k < |h| && h[k].Sent? ==> Before(h[k].id, h[k].index, id, index)
    case Finished(_, _, _) => true
    case TimedOut(id, index, at) => id == |Removals(h)| && index + 1 == |Turns(h, id)|
    case Forced(id, _) => id == |Removals(h)|
    case Removed(id, turns, total, aborted, overdue, _) =>
      && id == |Removals(h)|
      && turns == |Turns(h, id)| <= total == |AddressOf(h, id).receivers|
      && (turns == total || aborted || overdue)
    case Final(id, listener, result) =>
      && id < |Removals(h)|
      && AddressOf(h, id).resultTo == Some(listener)
      && result == LastResult(h, id)
      && forall k :: 0 <= k < |h| && h[k].Final? ==> h[k].id != id
    case FinalLost(id) => id < |Removals(h)|
  }

  ghost predicate Lawful(h: seq<Event>) {
    forall k :: 0 <= k < |h| ==> Justified(h[..k], h[k])
  }

  // ---- How the state knows its history

  ghost predicate Counted(c: Core) {
    && Enqueues(c.history) == Upto(|c.records|)
    && 0 <= Head(c) && Removals(c.history) == Upto(Head(c))
    && (forall id :: 0 <= id < |c.records| ==>
          && c.records[id].result == LastResult(c.history, id)
          && |Turns(c.history, id)| == c.records[id].nextReceiver
          && c.records[id].receivers == AddressOf(c.history, id).receivers
          && (c.records[id].resultTo == None || c.records[id].resultTo == AddressOf(c.history, id).resultTo))
    && (forall id: nat :: id >= |c.records| ==> Turns(c.history, id) == [])
  }

  predicate IsFinal(e: Event, id: nat) {
    e.Final? && e.id == id
  }

  ghost predicate Witnessed(c: Core) {
    && (forall k :: 0 <= k < |c.history| && c.history[k].Sent? ==>
          || c.history[k].id < Head(c)
          || (c.history[k].id == Head(c) < |c.records| && c.history[k].index < c.records[Head(c)].nextReceiver))
    && (forall k :: 0 <= k < |c.history| && c.history[k].Final? ==>
          c.history[k].id < |c.records| && c.records[c.history[k].id].resultTo == None)
    && (forall id :: 0 <= id < |c.records| && c.records[id].resultTo == None ==>
          AddressOf(c.history, id).resultTo == None || exists k :: 0 <= k < |c.history| && IsFinal(c.history[k], id))
  }

  ghost predicate Linked(c: Core) {
    Lawful(c.history) && Counted(c) && Witnessed(c)
  }

  /** While a turn has started but its receiver was not called yet, nothing was sent in that turn. */
  ghost predicate Unsent(c: Core, pc: OrderedPc) {
    pc.Notifying? || pc.Calling? ==>
      forall k :: 0 <= k < |c.history| && c.history[k].Sent? ==>
        Before(c.history[k].id, c.history[k].index, pc.sp, pc.index)
  }

  lemma Append(h: seq<Event>, e: Event)
    ensures (h + [e])[..|h|] == h
    ensures Enqueues(h + [e]) == Enqueues(h) + (if e.Enqueued? then [e.id] else [])
    ensures Removals(h + [e]) == Removals(h) + (if e.Removed? then [e.id] else [])
    ensures forall id :: Turns(h + [e], id) == Turns(h, id) + (if e.Turn? && e.id == id then [e.index] else [])
    ensures forall id :: LastResult(h + [e], id) ==
              if (e.Enqueued? || e.Finished?) && e.id == id then e.result else LastResult(h, id)
    ensures forall id :: AddressOf(h + [e], id) ==
              if e.Enqueued? && e.id == id then Address(e.receivers, e.resultTo) else AddressOf(h, id)
    ensures Lawful(h) && Justified(h, e) ==> Lawful(h + [e])
  {
    assert (h + [e])[..|h|] == h;
    forall k | 0 <= k < |h| ensures (h + [e])[..k] == h[..k] {}
  }

  lemma UptoGrows(n: nat)
    ensures Upto(n) + [n] == Upto(n + 1)
  {}

  // ---- Every step keeps the link

  /** The parts of a record that the history knows. */
  predicate SameTale(r: Record, r1: Record) {
    && r1.result == r.result && r1.nextReceiver == r.nextReceiver
    && r1.resultTo == r.resultTo && r1.receivers == r.receivers
  }

  /** A step that logs nothing. */
  lemma LinkedQuiet(c: Core, c1: Core)
    requires Linked(c) && c1.history == c.history && |c1.records| == |c.records| && Head(c1) == Head(c)
    requires forall id :: 0 <= id < |c.records| ==> SameTale(c.records[id], c1.records[id])
    ensures Linked(c1)
  {
  }

  /** What a step that logs one event must do to the records. */
  ghost predicate Tells(c: Core, e: Event, c1: Core) {
    && c1.history == c.history + [e]
    && |c1.records| == |c.records| + (if e.Enqueued? then 1 else 0)
    && 0 <= Head(c1) == Head(c) + (if e.Removed? then 1 else 0)
    && (e.Enqueued? ==>
          var r := c1.records[|c.records|];
          r.result == e.result && r.nextReceiver == 0 && r.receivers == e.receivers && r.resultTo == e.resultTo)
    && (e.Turn? || e.Finished? ==> e.id < |c.records|)
    && (e.Sent? ==> e.id == Head(c) < |c.records| && e.index < c.records[e.id].nextReceiver)
    && (e.Final? ==> e.id < |c.records| && c1.records[e.id].resultTo == None)
    && forall id :: 0 <= id < |c.records| ==>
         && c1.records[id].receivers == c.records[id].receivers
         && c1.records[id].result == (if e.Finished? && e.id == id then e.result else c.records[id].result)
         && c1.records[id].nextReceiver == c.records[id].nextReceiver + (if e.Turn? && e.id == id then 1 else 0)
         && (c1.records[id].resultTo == c.records[id].resultTo || (e.Final? && e.id == id))
  }

  lemma CountedEvent(c: Core, e: Event, c1: Core)
    requires Counted(c) && Justified(c.history, e) && Tells(c, e, c1)
    ensures Counted(c1)
  {
    Append(c.history, e);
    UptoGrows(|c.records|);
    UptoGrows(Head(c));
  }

  lemma WitnessedEvent(c: Core, e: Event, c1: Core)
    requires Witnessed(c) && Counted(c) && Justified(c.history, e) && Tells(c, e, c1)
    ensures Witnessed(c1)
  {
    var h, h1 := c.history, c1.history;
    Append(h, e);
    forall id | 0 <= id < |c1.records| && c1.records[id].resultTo == None && AddressOf(h1, id).resultTo != None
      ensures exists k :: 0 <= k < |h1| && IsFinal(h1[k], id)
    {
      if e.Final? && e.id == id {
        assert IsFinal(h1[|h|], id);
      } else if id < |c.records| {
        var k :| 0 <= k < |h| && IsFinal(h[k], id);
        assert h1[k] == h[k];
      }
    }
    forall k | 0 <= k < |h1| && h1[k].Sent?
      ensures h1[k].id < Head(c1)
           || (h1[k].id == Head(c1) < |c1.records| && h1[k].index < c1.records[Head(c1)].nextReceiver)
    {
      if k < |h| { assert h1[k] == h[k]; }
    }
    forall k | 0 <= k < |h1| && h1[k].Final?
      ensures h1[k].id < |c1.records| && c1.records[h1[k].id].resultTo == None
    {
      if k < |h| { assert h1[k] == h[k]; }
    }
  }

  lemma LinkedEvent(c: Core, e: Event, c1: Core)
    requires Linked(c) && Justified(c.history, e) && Tells(c, e, c1)
    ensures Linked(c1)
  {
    Append(c.history, e);
    CountedEvent(c, e, c1);
    WitnessedEvent(c, e, c1);
  }

  lemma LinkedPublish(s: State, receivers: seq<Receiver>, resultTo: Option<Listener>, result: Payload)
    requires Invariant(s) && Linked(s.core) && ByPriority(receivers)
    ensures Linked(Enqueue(s.core, NewRecord(receivers, resultTo, result)))
  {
    var c, c1 := s.core, Enqueue(s.core, NewRecord(receivers, resultTo, result));
    LinkedEvent(c, Enqueued(|c.records|, receivers, resultTo, result), c1);
  }

  lemma LinkedUpdate(s: State)
    requires Invariant(s) && Linked(s.core) && s.main.Loaded?
    ensures Linked(FinishRecord(s.core, s.main.sp, s.main.call))
  {
    var e := Finished(s.main.sp, s.main.call.result, s.main.call.abort);
    LinkedEvent(s.core, e, FinishRecord(s.core, s.main.sp, s.main.call));
  }

  lemma LinkedMain(s: State, a: MainAction)
    requires Invariant(s) && Linked(s.core) && MainEnabled(s.main, a)
    ensures Linked(MainStep(s.core, s.main, a).0)
  {
    match a
    case Publish(receivers, resultTo, result) => LinkedPublish(s, receivers, resultTo, result);
    case UpdateRecord => LinkedUpdate(s);
    case _ =>
      QuietMain(s.core, s.main, a);
      LinkedQuiet(s.core, MainStep(s.core, s.main, a).0);
  }

  lemma QuietMain(c: Core, pc: MainPc, a: MainAction)
    requires MainEnabled(pc, a) && !a.Publish? && !a.UpdateRecord?
    ensures var c1 := MainStep(c, pc, a).0; c1.history == c.history && c1.records == c.records && c1.queue == c.queue
  {
  }

  /** Steps that log nothing and change nothing the history knows. */
  lemma QuietTasks(c: Core, pc: OrderedPc, a: OrderedAction)
    requires OrderedEnabled(c, pc, a) && (a.RunNext? || a.OrderedSchedule? || a.Result? || a.Check?)
    ensures var c1 := OrderedStep(c, pc, a).0;
      && c1.history == c.history && |c1.records| == |c.records| && Head(c1) == Head(c)
      && forall id :: 0 <= id < |c.records| ==> SameTale(c.records[id], c1.records[id])
  {
  }

  lemma LinkedTasks(s: State, a: OrderedAction)
    requires Invariant(s) && Linked(s.core) && OrderedEnabled(s.core, s.ordered, a)
    requires a.RunNext? || a.OrderedSchedule? || a.Result? || a.Check?
    ensures Linked(OrderedStep(s.core, s.ordered, a).0)
  {
    QuietTasks(s.core, s.ordered, a);
    LinkedQuiet(s.core, OrderedStep(s.core, s.ordered, a).0);
  }

  lemma LinkedTimer(s: State)
    requires Invariant(s) && Linked(s.core) && OrderedEnabled(s.core, s.ordered, RunTimer)
    ensures Linked(OrderedStep(s.core, s.ordered, RunTimer).0)
  {
    LinkedQuiet(s.core, Timeout(s.core).0);
  }

  lemma LinkedExpire(s: State)
    requires Invariant(s) && Linked(s.core) && s.ordered.Expiring?
    ensures Linked(TimeOutFront(s.core, s.ordered.sp, s.ordered.at))
  {
    var sp := s.ordered.sp;
    LinkedEvent(s.core, TimedOut(sp, At(s.core.records, sp).nextReceiver - 1, s.ordered.at),
                TimeOutFront(s.core, sp, s.ordered.at));
  }

  lemma LinkedPrepare(s: State)
    requires Invariant(s) && Linked(s.core) && OrderedEnabled(s.core, s.ordered, Prepare)
    ensures Linked(PrepareFront(s.core, s.ordered.sp))
  {
    var sp := s.ordered.sp;
    LinkedEvent(s.core, Turn(sp, At(s.core.records, sp).nextReceiver, s.core.now), PrepareFront(s.core, sp));
  }

  lemma LinkedNotify(s: State, outcome: Outcome)
    requires Invariant(s) && Linked(s.core) && s.ordered.Notifying?
    ensures Linked(NotifyReceiver(s.core, s.ordered.sp, s.ordered.index, outcome))
  {
    LinkedQuiet(s.core, NotifyReceiver(s.core, s.ordered.sp, s.ordered.index, outcome));
  }

  lemma LinkedInvoke(s: State)
    requires Invariant(s) && Linked(s.core) && Unsent(s.core, s.ordered) && s.ordered.Calling?
    ensures Linked(CallReceiver(s.core, s.ordered.sp, s.ordered.index))
  {
    var c, sp, index := s.core, s.ordered.sp, s.ordered.index;
    var r := At(c.records, sp);
    LinkedEvent(c, Sent(sp, index, r.receivers[index].listener, r.result), CallReceiver(c, sp, index));
  }

  lemma LinkedFinal(s: State, proxy: bool)
    requires Invariant(s) && Linked(s.core) && s.ordered.Finalizing? && s.ordered.removed != []
    ensures Linked(NotifyFinalSubscriber(s.core, s.ordered.removed[0], proxy))
  {
    var c, sp := s.core, s.ordered.removed[0];
    var r, c1 := At(c.records, sp), NotifyFinalSubscriber(c, sp, proxy);
    if r.resultTo.Some? {
      LinkedEvent(c, if proxy then Final(sp, r.resultTo.value, r.result) else FinalLost(sp), c1);
    } else {
      LinkedQuiet(c, c1);
    }
  }

  lemma LinkedRemove(c: Core, overdue: bool)
    requires QueueShape(c) && RecordsShape(c.records) && Linked(c) && c.queue != []
    requires ShouldRemove(At(c.records, c.queue[0]), overdue)
    ensures Linked(RemoveFront(c, overdue))
  {
    var r := At(c.records, c.queue[0]);
    LinkedEvent(c, Removed(c.queue[0], r.nextReceiver, |r.receivers|, r.resultAbort, overdue, c.now),
                RemoveFront(c, overdue));
  }

  lemma LinkedDrop(c: Core)
    requires QueueShape(c) && RecordsShape(c.records) && Linked(c) && c.queue != [] && RemovesFront(c)
    ensures Linked(DropFront(c)) && RecordsShape(DropFront(c).records)
  {
    DropFrontFacts(c);
    LinkedForce(c);
    LinkedRemove(ForceFront(c), Overdue(At(c.records, c.queue[0]), c.now));
  }

  lemma {:induction false} LinkedDrain(c: Core)
    requires QueueShape(c) && RecordsShape(c.records) && Linked(c)
    ensures Linked(DrainQueue(c).core)
    decreases |c.queue|
  {
    if c.queue != [] {
      if RemovesFront(c) {
        LinkedDrop(c);
        DropFrontFacts(c);
        LinkedDrain(DropFront(c));
      } else {
        LinkedForce(c);
      }
    }
  }

  lemma LinkedForce(c: Core)
    requires QueueShape(c) && Linked(c) && c.queue != []
    ensures Linked(ForceFront(c))
  {
    if Overdue(At(c.records, c.queue[0]), c.now) {
      LinkedEvent(c, Forced(c.queue[0], c.now), ForceFront(c));
    }
  }

  lemma UnsentMain(s: State, a: MainAction)
    requires Unsent(s.core, s.ordered) && MainEnabled(s.main, a)
    ensures Unsent(MainStep(s.core, s.main, a).0, s.ordered)
  {
  }

  lemma UnsentPrepare(s: State)
    requires Invariant(s) && Linked(s.core) && s.ordered.Preparing?
    ensures Unsent(PrepareFront(s.core, s.ordered.sp),
                   Notifying(s.ordered.sp, At(s.core.records, s.ordered.sp).nextReceiver))
  {
    assert At(s.core.records, s.ordered.sp) == s.core.records[Head(s.core)];
  }

  lemma NotifyIsQuiet(c: Core, sp: nat, index: nat, outcome: Outcome)
    ensures NotifyReceiver(c, sp, index, outcome).history == c.history
  {
  }

  /** Only Prepare and Notify lead to a turn in which nobody has been called yet. */
  lemma OtherTurns(c: Core, pc: OrderedPc, a: OrderedAction)
    requires OrderedEnabled(c, pc, a) && !a.Prepare? && !a.Notify?
    ensures var pc1 := OrderedStep(c, pc, a).1; !pc1.Notifying? && !pc1.Calling?
  {
  }

  lemma UnsentOrdered(s: State, a: OrderedAction)
    requires Invariant(s) && Linked(s.core) && Unsent(s.core, s.ordered) && OrderedEnabled(s.core, s.ordered, a)
    ensures Unsent(OrderedStep(s.core, s.ordered, a).0, OrderedStep(s.core, s.ordered, a).1)
  {
    if a.Prepare? {
      UnsentPrepare(s);
    } else if a.Notify? {
      NotifyIsQuiet(s.core, s.ordered.sp, s.ordered.index, a.outcome);
    } else {
      OtherTurns(s.core, s.ordered, a);
    }
  }

  ghost predicate Faithful(s: State) {
    Invariant(s) && Linked(s.core) && Unsent(s.core, s.ordered)
  }

  lemma LinkedOrdered(s: State, a: OrderedAction)
    requires Faithful(s) && OrderedEnabled(s.core, s.ordered, a)
    ensures Linked(OrderedStep(s.core, s.ordered, a).0)
  {
    match a
    case Drain => LinkedDrain(s.core);
    case RunTimer => LinkedTimer(s);
    case Expire => LinkedExpire(s);
    case Prepare => LinkedPrepare(s);
    case Notify(outcome) => LinkedNotify(s, outcome);
    case Invoke => LinkedInvoke(s);
    case NotifyFinal(proxy) => if s.ordered.removed != [] { LinkedFinal(s, proxy); }
    case _ => LinkedTasks(s, a);
  }

  lemma FaithfulStep(s: State, a: Action)
    requires Faithful(s) && Enabled(s, a)
    ensures Faithful(Step(s, a))
  {
    InvariantStep(s, a);
    match a
    case Tick(_) => LinkedQuiet(s.core, Step(s, a).core);
    case Main(m) => LinkedMain(s, m); UnsentMain(s, m);
    case Ordered(o) => LinkedOrdered(s, o); UnsentOrdered(s, o);
  }

  lemma {:induction false} RunFaithful(states: seq<State>, actions: seq<Action>, i: nat)
    requires Run(states, actions) && i < |states|
    ensures Faithful(states[i])
  {
    if i > 0 {
      RunFaithful(states, actions, i - 1);
      assert Follows(states, actions, i - 1);
      FaithfulStep(states[i - 1], actions[i - 1]);
    }
  }
}
