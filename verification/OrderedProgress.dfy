/** Progress of the dispatcher: the shape every reachable state keeps, the two flags and their tasks,
    and who will wake the queue up. */
module OrderedProgress {
  import opened Wrappers
  import opened OrderedRecords
  import opened OrderedDispatch

  /** How many records have left the queue. */
  function Head(c: Core): int {
    |c.records| - |c.queue|
  }

  ghost predicate QueueShape(c: Core) {
    && 0 <= Head(c)
    && forall i :: 0 <= i < |c.queue| ==> c.queue[i] == Head(c) + i
  }

  predicate RecordShape(r: Record) {
    |r.deliveryState| == |r.receivers| && r.nextReceiver <= |r.receivers|
  }

  ghost predicate RecordsShape(records: seq<Record>) {
    forall id :: 0 <= id < |records| ==> RecordShape(records[id])
  }

  predicate IsFront(c: Core, sp: nat) {
    c.queue != [] && c.queue[0] == sp
  }

  ghost predicate OrderedShape(c: Core, pc: OrderedPc) {
    match pc
    case Idle => true
    case Draining => true
    case Finalizing(removed, next) =>
      && |removed| <= Head(c)
      && (forall i :: 0 <= i < |removed| ==> removed[i] == Head(c) - |removed| + i)
      && (next.Some? ==> IsFront(c, next.value) && !Exhausted(At(c.records, next.value)))
    case Preparing(sp) => IsFront(c, sp) && !Exhausted(At(c.records, sp))
    case Notifying(sp, index) => IsFront(c, sp) && index + 1 == At(c.records, sp).nextReceiver
    case Calling(sp, index) => IsFront(c, sp) && index + 1 == At(c.records, sp).nextReceiver
    case Awaiting(sp, index) => IsFront(c, sp) && index + 1 == At(c.records, sp).nextReceiver
    case Checking(sp) => IsFront(c, sp) && At(c.records, sp).nextReceiver > 0
    case OrderedScheduling(_) => true
    case Expiring(sp, _) => IsFront(c, sp) && At(c.records, sp).nextReceiver > 0
  }

  ghost predicate MainShape(c: Core, pc: MainPc) {
    && (pc.Matched? ==> pc.sp < |c.records| && pc.sp <= Head(c))
    && (pc.Loaded? ==> pc.sp < |c.records| && pc.sp <= Head(c))
  }

  ghost predicate Shape(s: State) {
    && QueueShape(s.core)
    && RecordsShape(s.core.records)
    && OrderedShape(s.core, s.ordered)
    && MainShape(s.core, s.main)
  }

  predicate AtRest(r: Record) {
    r.state == IDLE && r.curReceiver == None
  }

  /** What the front record may look like at each point of ProcessNextOrderedEvent. */
  predicate FrontFlow(r: Record, pc: OrderedPc) {
    && (r.nextReceiver == 0 ==> AtRest(r) && r.dispatchTime == 0)
    && (r.curReceiver.Some? ==>
          && 0 < r.nextReceiver <= |r.receivers|
          && r.curReceiver.value == r.receivers[r.nextReceiver - 1].listener)
    && match pc
       case Idle => r.state != RECEIVING && (r.state == IDLE <==> r.curReceiver == None)
       case Draining => r.state != RECEIVING && (r.state == IDLE <==> r.curReceiver == None)
       case Finalizing(_, next) =>
         r.state != RECEIVING && (r.state == IDLE <==> r.curReceiver == None) && (next.Some? ==> AtRest(r))
       case Preparing(_) => AtRest(r)
       case Notifying(_, _) => AtRest(r)
       case Calling(_, _) => r.state != RECEIVED && (r.state == IDLE <==> r.curReceiver == None)
       case Awaiting(_, _) => r.state != RECEIVED && (r.state == IDLE <==> r.curReceiver == None)
       case Checking(_) => r.state != RECEIVING && (r.curReceiver.Some? ==> r.state == RECEIVED)
       case OrderedScheduling(_) => r.state != RECEIVING && (r.state == IDLE <==> r.curReceiver == None)
       case Expiring(_, _) => r.state != RECEIVING && (r.state == IDLE <==> r.curReceiver == None)
  }

  /** One event in flight: only the front record can be anything but IDLE without a receiver. */
  predicate FlowAt(c: Core, pc: OrderedPc, id: nat)
    requires id < |c.records|
  {
    if IsFront(c, id) then FrontFlow(c.records[id], pc)
    else AtRest(c.records[id]) && (id > Head(c) ==> c.records[id].nextReceiver == 0 && c.records[id].dispatchTime == 0)
  }

  ghost predicate Flow(s: State) {
    forall id {:trigger s.core.records[id]} {:trigger FlowAt(s.core, s.ordered, id)} ::
      0 <= id < |s.core.records| ==> FlowAt(s.core, s.ordered, id)
  }

  /** Each flag is up only while its task is queued or about to be. */
  predicate Flags(s: State) {
    && (s.core.pendingTimeout <==> s.core.timer.Some?)
    && (s.core.timer.Some? ==> s.core.queue != [] && At(s.core.records, s.core.queue[0]).nextReceiver > 0)
    && (s.core.scheduled ==>
          s.core.readyTrue > 0 || s.ordered == OrderedScheduling(Submit) || s.main == MainScheduling(Submit))
    && (s.ordered.Notifying? || s.ordered.Calling? || s.ordered.Awaiting? || s.ordered.Checking? ==>
          s.core.timer.Some?)
    && (s.ordered.Expiring? ==> s.core.timer.None?)
  }

  /** A ProcessNextOrderedEvent task is queued, is about to be queued, or is running and will go on. */
  predicate WakeUp(s: State) {
    || s.core.readyTrue + s.core.readyFalse > 0
    || s.main.MainScheduling? || s.main.Submitting?
    || !(s.ordered.Idle? || (s.ordered.Finalizing? && s.ordered.next.None?))
  }

  /** Nothing can be stuck for longer than the timer: the queue is empty, or will be woken, or is timed. */
  predicate Timed(s: State) {
    s.core.queue != [] ==>
      var r := At(s.core.records, s.core.queue[0]);
      && (WakeUp(s) || s.core.timer.Some?)
      && (r.nextReceiver == 0 ==> WakeUp(s))
      && (r.state != IDLE ==> s.core.timer.Some? || s.ordered.Expiring?)
  }

  ghost predicate Invariant(s: State) {
    Shape(s) && Flow(s) && Flags(s) && Timed(s)
  }

  /** The record ProcessOrderedEventQueueLocked leaves behind when it looks at `r`. */
  function Looked(r: Record, now: nat): Record {
    if Overdue(r, now) then HandleTimeout(r, now) else r
  }

  /** Why a record may leave the queue. */
  predicate Leaves(r: Record, now: nat) {
    Looked(r, now).state == IDLE && ShouldRemove(Looked(r, now), Overdue(r, now))
  }

  lemma DropFrontFacts(c: Core)
    requires QueueShape(c) && c.queue != []
    ensures var c1 := DropFront(c); var sp := c.queue[0];
      && c1.queue == c.queue[1..]
      && c1.records == c.records[sp := Looked(c.records[sp], c.now)]
      && QueueShape(c1)
      && c1.now == c.now && c1.scheduled == c.scheduled
      && c1.readyTrue == c.readyTrue && c1.readyFalse == c.readyFalse
      && !c1.pendingTimeout && c1.timer == if c.pendingTimeout then None else c.timer
    ensures RemovesFront(c) <==> Leaves(c.records[c.queue[0]], c.now)
    ensures ForceFront(c).records == c.records[c.queue[0] := Looked(c.records[c.queue[0]], c.now)]
    ensures ForceFront(c).queue == c.queue && ForceFront(c).now == c.now
  {
  }

  /** One call of ProcessOrderedEventQueueLocked pops a prefix of the queue. */
  lemma {:induction false} DrainPops(c: Core)
    requires QueueShape(c)
    ensures c.queue == DrainQueue(c).removed + DrainQueue(c).core.queue
    ensures |DrainQueue(c).core.records| == |c.records|
    ensures QueueShape(DrainQueue(c).core)
    decreases |c.queue|
  {
    if c.queue != [] {
      DropFrontFacts(c);
      if RemovesFront(c) {
        DrainPops(DropFront(c));
        assert c.queue == [c.queue[0]] + DropFront(c).queue;
      }
    }
  }

  /** What it does to the records: every popped one was exhausted, aborted or overdue, and only an overdue
      one was changed; the others are untouched. */
  lemma {:induction false} DrainRecords(c: Core, id: nat)
    requires QueueShape(c) && id < |c.records|
    ensures |DrainQueue(c).core.records| == |c.records|
    ensures id in DrainQueue(c).removed ==>
              Leaves(c.records[id], c.now) && DrainQueue(c).core.records[id] == Looked(c.records[id], c.now)
    ensures id !in DrainQueue(c).removed ==> DrainQueue(c).core.records[id] == c.records[id]
    decreases |c.queue|
  {
    if c.queue != [] {
      DropFrontFacts(c);
      var sp := c.queue[0];
      if RemovesFront(c) {
        DrainRecords(DropFront(c), id);
        DrainPops(DropFront(c));
        assert sp !in c.queue[1..];
      } else {
        assert Overdue(c.records[sp], c.now) ==> false;
      }
    }
  }

  /** It stops at an empty queue, at a record that is still with a receiver, or at one that is ready for its
      next receiver; the timer is gone if anything was removed. */
  lemma {:induction false} DrainStops(c: Core)
    requires QueueShape(c)
    ensures var c1 := DrainQueue(c).core;
      && c1.scheduled == c.scheduled && c1.readyTrue == c.readyTrue && c1.readyFalse == c.readyFalse
      && c1.now == c.now
      && (if DrainQueue(c).removed == [] then c1.timer == c.timer && c1.pendingTimeout == c.pendingTimeout
          else !c1.pendingTimeout && c1.timer == if c.pendingTimeout then None else c.timer)
      && match DrainQueue(c).next
         case None => c1.queue == [] || At(c1.records, c1.queue[0]).state != IDLE
         case Some(sp) =>
           IsFront(c1, sp) && At(c1.records, sp).state == IDLE && !ShouldRemove(At(c1.records, sp), false)
    decreases |c.queue|
  {
    if c.queue != [] {
      DropFrontFacts(c);
      if RemovesFront(c) {
        DrainStops(DropFront(c));
      }
    }
  }

  lemma {:induction false} DrainKeepsHistory(c: Core)
    ensures c.history <= DrainQueue(c).core.history
    decreases |c.queue|
  {
    if c.queue != [] && RemovesFront(c) {
      DrainKeepsHistory(DropFront(c));
    }
  }

  lemma ShapeDrain(s: State)
    requires Shape(s) && s.ordered.Draining?
    ensures Shape(Step(s, Ordered(Drain)))
  {
    var d := DrainQueue(s.core);
    DrainPops(s.core);
    DrainStops(s.core);
    forall i | 0 <= i < |d.removed| ensures d.removed[i] == Head(d.core) - |d.removed| + i {
      assert d.removed[i] == s.core.queue[i];
    }
    forall id | 0 <= id < |d.core.records| ensures RecordShape(d.core.records[id]) {
      DrainRecords(s.core, id);
    }
  }

  lemma ShapePublish(s: State, r: Record)
    requires Shape(s) && RecordShape(r)
    ensures Shape(State(Enqueue(s.core, r), MainScheduling(Look), s.ordered))
  {
  }

  lemma ShapePut(s: State, sp: nat, r: Record, main: MainPc)
    requires Shape(s) && RecordShape(r) && r.nextReceiver == At(s.core.records, sp).nextReceiver
    requires r.receivers == At(s.core.records, sp).receivers && (main.Submitting? || main.Ready?)
    ensures Shape(State(s.core.(records := Put(s.core.records, sp, r)), main, s.ordered))
  {
  }

  lemma ShapeMainOwn(s: State, a: MainAction)
    requires Shape(s) && MainEnabled(s.main, a) && !a.Publish? && !a.UpdateRecord?
    ensures Shape(Step(s, Main(a)))
  {
    var (c1, pc1) := MainStep(s.core, s.main, a);
    assert c1.queue == s.core.queue && c1.records == s.core.records;
    assert OrderedShape(c1, s.ordered);
  }

  lemma ShapeMain(s: State, a: MainAction)
    requires Shape(s) && MainEnabled(s.main, a)
    ensures Shape(Step(s, Main(a)))
  {
    match a
    case Publish(receivers, resultTo, result) => ShapePublish(s, NewRecord(receivers, resultTo, result));
    case UpdateRecord => ShapeUpdate(s);
    case _ => ShapeMainOwn(s, a);
  }

  lemma ShapeUpdate(s: State)
    requires Shape(s) && s.main.Loaded?
    ensures Shape(Step(s, Main(UpdateRecord)))
  {
    var c, sp := s.core, s.main.sp;
    var r := Finish(c.records[sp], s.main.call.result, s.main.call.abort);
    var main := if s.main.state.RECEIVED? then Submitting else Ready;
    assert RecordShape(c.records[sp]);
    ShapePut(s, sp, r, main);
    ShapeLogged(State(c.(records := Put(c.records, sp, r)), main, s.ordered),
                Finished(sp, s.main.call.result, s.main.call.abort));
  }

  /** The history has no part in the shape. */
  lemma ShapeLogged(s: State, e: Event)
    requires Shape(s)
    ensures Shape(s.(core := Log(s.core, e)))
  {
  }

  lemma ShapeTasks(s: State, a: OrderedAction)
    requires Shape(s) && OrderedEnabled(s.core, s.ordered, a)
    requires a.RunNext? || a.OrderedSchedule?
    ensures Shape(Step(s, Ordered(a)))
  {
  }

  lemma ShapeTimer(s: State, a: OrderedAction)
    requires Invariant(s) && OrderedEnabled(s.core, s.ordered, a) && (a.RunTimer? || a.Expire?)
    ensures Shape(Step(s, Ordered(a)))
  {
  }

  lemma ShapeTurn(s: State, a: OrderedAction)
    requires Shape(s) && OrderedEnabled(s.core, s.ordered, a)
    requires a.Prepare? || a.Result? || a.Check?
    ensures Shape(Step(s, Ordered(a)))
  {
  }

  lemma ShapeNotify(s: State, a: OrderedAction)
    requires Shape(s) && OrderedEnabled(s.core, s.ordered, a) && (a.Notify? || a.Invoke?)
    ensures Shape(Step(s, Ordered(a)))
  {
    var (c1, pc1) := OrderedStep(s.core, s.ordered, a);
    if a.Notify? {
      ReceiverPut(s.core, s.ordered.sp, s.ordered.index, a.outcome);
    }
    assert MainShape(c1, s.main);
  }

  lemma ReceiverPut(c: Core, sp: nat, index: nat, outcome: Outcome)
    requires RecordsShape(c.records) && IsFront(c, sp) && sp < |c.records|
    ensures var c1 := NotifyReceiver(c, sp, index, outcome);
      && c1.queue == c.queue && |c1.records| == |c.records| && RecordsShape(c1.records)
      && c1.records[sp].nextReceiver == c.records[sp].nextReceiver
  {
  }

  lemma ShapeNotifyFinal(s: State, a: OrderedAction)
    requires Shape(s) && OrderedEnabled(s.core, s.ordered, a) && a.NotifyFinal?
    ensures Shape(Step(s, Ordered(a)))
  {
  }

  /** After a drain the front is either untouched, or a record that has never been dispatched. */
  lemma DrainFront(s: State)
    requires Shape(s) && Flow(s)
    ensures var d := DrainQueue(s.core); d.core.queue != [] ==>
      var sp := d.core.queue[0];
      && sp < |s.core.records| && sp < |d.core.records|
      && d.core.records[sp] == s.core.records[sp]
      && (if d.removed == [] then sp == s.core.queue[0]
          else s.core.records[sp].nextReceiver == 0 && s.core.records[sp].state == IDLE)
  {
    var d := DrainQueue(s.core);
    DrainPops(s.core);
    if d.core.queue != [] {
      var sp := d.core.queue[0];
      assert sp == s.core.queue[|d.removed|];
      assert sp !in d.removed by {
        assert forall i :: 0 <= i < |d.removed| ==> d.removed[i] == s.core.queue[i];
      }
      DrainRecords(s.core, sp);
    }
  }

  lemma FlowDrainAt(s: State, id: nat)
    requires Shape(s) && Flow(s) && s.ordered.Draining? && id < |s.core.records|
    ensures var d := DrainQueue(s.core);
      |d.core.records| == |s.core.records| && FlowAt(d.core, Finalizing(d.removed, d.next), id)
  {
    var d := DrainQueue(s.core);
    DrainPops(s.core);
    if IsFront(d.core, id) {
      FlowDrainFront(s);
    } else if id in d.removed {
      FlowDrainPopped(s, id);
    } else {
      assert FlowAt(s.core, s.ordered, id);
      DrainRecords(s.core, id);
    }
  }

  lemma FlowDrainFront(s: State)
    requires Shape(s) && Flow(s) && s.ordered.Draining? && DrainQueue(s.core).core.queue != []
    ensures var d := DrainQueue(s.core);
      var sp := d.core.queue[0];
      sp < |d.core.records| && FrontFlow(d.core.records[sp], Finalizing(d.removed, d.next))
  {
    var sp := DrainQueue(s.core).core.queue[0];
    DrainPops(s.core);
    DrainFront(s);
    DrainStops(s.core);
    assert FlowAt(s.core, s.ordered, sp);
  }

  /** A record that is popped is at rest, and everything behind it keeps waiting. */
  lemma FlowDrainPopped(s: State, id: nat)
    requires Shape(s) && Flow(s) && s.ordered.Draining? && id < |s.core.records| && id in DrainQueue(s.core).removed
    ensures var c1 := DrainQueue(s.core).core;
      |c1.records| == |s.core.records| && AtRest(c1.records[id]) && id < Head(c1)
  {
    var d := DrainQueue(s.core);
    DrainPops(s.core);
    DrainRecords(s.core, id);
    var i :| 0 <= i < |d.removed| && d.removed[i] == id;
    assert id == s.core.queue[i];
    assert FlowAt(s.core, s.ordered, id);
  }

  lemma FlowDrain(s: State)
    requires Shape(s) && Flow(s) && s.ordered.Draining?
    ensures Flow(Step(s, Ordered(Drain)))
  {
    var d := DrainQueue(s.core);
    DrainPops(s.core);
    forall id | 0 <= id < |d.core.records| ensures FlowAt(d.core, Finalizing(d.removed, d.next), id) {
      FlowDrainAt(s, id);
    }
  }

  lemma FlowMain(s: State, a: MainAction)
    requires Shape(s) && Flow(s) && MainEnabled(s.main, a)
    ensures Flow(Step(s, Main(a)))
  {
    var c1 := MainStep(s.core, s.main, a).0;
    forall id | 0 <= id < |c1.records| ensures FlowAt(c1, s.ordered, id) {
      if id < |s.core.records| { assert FlowAt(s.core, s.ordered, id); }
    }
  }

  lemma FlowOrdered(s: State, a: OrderedAction)
    requires Invariant(s) && OrderedEnabled(s.core, s.ordered, a) && !a.Drain?
    ensures Flow(Step(s, Ordered(a)))
  {
    var (c1, pc1) := OrderedStep(s.core, s.ordered, a);
    forall id: nat | id < |c1.records| ensures FlowAt(c1, pc1, id) {
      assert FlowAt(s.core, s.ordered, id);
      match a
      case NotifyFinal(proxy) => FlowFinalAt(s, proxy, id);
      case Check => FlowCheckAt(s, id);
      case RunTimer => FlowTimerAt(s, a, id);
      case Expire => FlowTimerAt(s, a, id);
      case Prepare => FlowTurnAt(s, a, id);
      case Result(_) => FlowTurnAt(s, a, id);
      case Notify(outcome) => FlowNotifyAt(s, outcome, id);
      case Invoke => FlowInvokeAt(s, id);
      case _ => FlowTaskAt(s, a, id);
    }
  }

  lemma FlowTimerAt(s: State, a: OrderedAction, id: nat)
    requires Shape(s) && OrderedEnabled(s.core, s.ordered, a) && (a.RunTimer? || a.Expire?)
    requires id < |s.core.records| && FlowAt(s.core, s.ordered, id)
    ensures var (c1, pc1) := OrderedStep(s.core, s.ordered, a);
      |c1.records| == |s.core.records| && FlowAt(c1, pc1, id)
  {
  }

  lemma FlowTurnAt(s: State, a: OrderedAction, id: nat)
    requires Shape(s) && OrderedEnabled(s.core, s.ordered, a) && (a.Prepare? || a.Result?)
    requires id < |s.core.records| && FlowAt(s.core, s.ordered, id)
    ensures var (c1, pc1) := OrderedStep(s.core, s.ordered, a);
      |c1.records| == |s.core.records| && FlowAt(c1, pc1, id)
  {
  }

  lemma FlowInvokeAt(s: State, id: nat)
    requires Shape(s) && s.ordered.Calling?
    requires id < |s.core.records| && FlowAt(s.core, s.ordered, id)
    ensures FlowAt(CallReceiver(s.core, s.ordered.sp, s.ordered.index), Awaiting(s.ordered.sp, s.ordered.index), id)
  {
  }

  lemma FlowNotifyAt(s: State, outcome: Outcome, id: nat)
    requires Shape(s) && s.ordered.Notifying?
    requires id < |s.core.records| && FlowAt(s.core, s.ordered, id)
    ensures var (c1, pc1) := OrderedStep(s.core, s.ordered, Notify(outcome));
      |c1.records| == |s.core.records| && FlowAt(c1, pc1, id)
  {
    assert s.core.records[s.ordered.sp] == At(s.core.records, s.ordered.sp);
  }

  lemma FlowTaskAt(s: State, a: OrderedAction, id: nat)
    requires Shape(s) && OrderedEnabled(s.core, s.ordered, a)
    requires a.RunNext? || a.OrderedSchedule?
    requires id < |s.core.records| && FlowAt(s.core, s.ordered, id)
    ensures var (c1, pc1) := OrderedStep(s.core, s.ordered, a);
      |c1.records| == |s.core.records| && FlowAt(c1, pc1, id)
  {
  }

  lemma FlowCheckAt(s: State, id: nat)
    requires Shape(s) && s.ordered.Checking?
    requires id < |s.core.records| && FlowAt(s.core, s.ordered, id)
    ensures var (c1, pc1) := OrderedStep(s.core, s.ordered, Check);
      |c1.records| == |s.core.records| && FlowAt(c1, pc1, id)
  {
  }

  lemma FlowFinalAt(s: State, proxy: bool, id: nat)
    requires Shape(s) && s.ordered.Finalizing?
    requires id < |s.core.records| && FlowAt(s.core, s.ordered, id)
    ensures var (c1, pc1) := OrderedStep(s.core, s.ordered, NotifyFinal(proxy));
      |c1.records| == |s.core.records| && FlowAt(c1, pc1, id)
  {
    if s.ordered.removed != [] {
      FinalKeepsFlow(s.core, s.ordered.removed[0], proxy, id);
    }
  }

  lemma FinalKeepsFlow(c: Core, sp: nat, proxy: bool, id: nat)
    requires id < |c.records|
    ensures var c1 := NotifyFinalSubscriber(c, sp, proxy);
      && c1.queue == c.queue && |c1.records| == |c.records|
      && c1.records[id].(resultTo := None) == c.records[id].(resultTo := None)
  {
  }

  lemma FlagsDrain(s: State)
    requires Invariant(s) && s.ordered.Draining?
    ensures Flags(Step(s, Ordered(Drain)))
  {
    DrainStops(s.core);
    DrainPops(s.core);
    DrainFront(s);
  }

  lemma TimedDrain(s: State)
    requires Invariant(s) && s.ordered.Draining?
    ensures Timed(Step(s, Ordered(Drain)))
  {
    DrainStops(s.core);
    DrainFront(s);
  }

  lemma FlagsMain(s: State, a: MainAction)
    requires Invariant(s) && MainEnabled(s.main, a)
    ensures Flags(Step(s, Main(a)))
  {
  }

  lemma TimedMain(s: State, a: MainAction)
    requires Invariant(s) && MainEnabled(s.main, a)
    ensures Timed(Step(s, Main(a)))
  {
  }

  lemma FlagsTurn(s: State, a: OrderedAction)
    requires Invariant(s) && OrderedEnabled(s.core, s.ordered, a)
    requires a.Prepare? || a.Notify? || a.Invoke? || a.Result? || a.Check?
    ensures Flags(Step(s, Ordered(a)))
  {
  }

  lemma FlagsTask(s: State, a: OrderedAction)
    requires Invariant(s) && OrderedEnabled(s.core, s.ordered, a)
    requires a.RunNext? || a.RunTimer? || a.Expire? || a.NotifyFinal? || a.OrderedSchedule?
    ensures Flags(Step(s, Ordered(a)))
  {
  }

  lemma FlagsOrdered(s: State, a: OrderedAction)
    requires Invariant(s) && OrderedEnabled(s.core, s.ordered, a) && !a.Drain?
    ensures Flags(Step(s, Ordered(a)))
  {
    match a
    case Prepare => FlagsTurn(s, a);
    case Notify(_) => FlagsTurn(s, a);
    case Invoke => FlagsTurn(s, a);
    case Result(_) => FlagsTurn(s, a);
    case Check => FlagsTurn(s, a);
    case _ => FlagsTask(s, a);
  }

  lemma TimedTurn(s: State, a: OrderedAction)
    requires Invariant(s) && OrderedEnabled(s.core, s.ordered, a)
    requires a.Prepare? || a.Notify? || a.Invoke? || a.Result? || a.Check?
    ensures Timed(Step(s, Ordered(a)))
  {
  }

  lemma TimedTask(s: State, a: OrderedAction)
    requires Invariant(s) && OrderedEnabled(s.core, s.ordered, a)
    requires a.RunNext? || a.RunTimer? || a.Expire? || a.NotifyFinal? || a.OrderedSchedule?
    ensures Timed(Step(s, Ordered(a)))
  {
  }

  lemma TimedOrdered(s: State, a: OrderedAction)
    requires Invariant(s) && OrderedEnabled(s.core, s.ordered, a) && !a.Drain?
    ensures Timed(Step(s, Ordered(a)))
  {
    match a
    case Prepare => TimedTurn(s, a);
    case Notify(_) => TimedTurn(s, a);
    case Invoke => TimedTurn(s, a);
    case Result(_) => TimedTurn(s, a);
    case Check => TimedTurn(s, a);
    case _ => TimedTask(s, a);
  }

  lemma ShapeOrdered(s: State, a: OrderedAction)
    requires Invariant(s) && OrderedEnabled(s.core, s.ordered, a) && !a.Drain?
    ensures Shape(Step(s, Ordered(a)))
  {
    match a
    case RunTimer => ShapeTimer(s, a);
    case Expire => ShapeTimer(s, a);
    case NotifyFinal(_) => ShapeNotifyFinal(s, a);
    case Notify(_) => ShapeNotify(s, a);
    case Invoke => ShapeNotify(s, a);
    case Prepare => ShapeTurn(s, a);
    case Result(_) => ShapeTurn(s, a);
    case Check => ShapeTurn(s, a);
    case _ => ShapeTasks(s, a);
  }

  /** Every step, with any interleaving of the two queues, keeps the invariant. */
  lemma InvariantStep(s: State, a: Action)
    requires Invariant(s) && Enabled(s, a)
    ensures Invariant(Step(s, a))
  {
    match a
    case Tick(_) =>
    case Main(m) => ShapeMain(s, m); FlowMain(s, m); FlagsMain(s, m); TimedMain(s, m);
    case Ordered(o) =>
      if o.Drain? {
        ShapeDrain(s); FlowDrain(s); FlagsDrain(s); TimedDrain(s);
      } else {
        ShapeOrdered(s, o); FlowOrdered(s, o); FlagsOrdered(s, o); TimedOrdered(s, o);
      }
  }

  lemma {:induction false} RunInvariant(states: seq<State>, actions: seq<Action>, i: nat)
    requires Run(states, actions) && i < |states|
    ensures Invariant(states[i])
  {
    if i > 0 {
      RunInvariant(states, actions, i - 1);
      assert Follows(states, actions, i - 1);
      InvariantStep(states[i - 1], actions[i - 1]);
    }
  }
}
