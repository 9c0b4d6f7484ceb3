/** The ordered-event dispatcher as a labelled step system. Two serial task queues share it: the main
    queue of the service (publish, finish, unsubscribe) and the ordered queue (ProcessNextOrderedEvent
    and the timeout). Whatever the other queue can observe in between is a step of its own. */
module OrderedDispatch {
  import opened Listeners
  import opened Wrappers
  import opened OrderedRecords

  /** What an observer sees, in order. A record is named by its position in the order of publication. */
  datatype Event =
    | Enqueued(id: nat, receivers: seq<Receiver>, resultTo: Option<Listener>, result: Payload)
    | Turn(id: nat, index: nat, at: nat)
    | Sent(id: nat, index: nat, listener: Listener, result: Payload)
    | Finished(id: nat, result: Payload, abort: bool)
    | TimedOut(id: nat, index: nat, at: nat)
    | Forced(id: nat, at: nat)
    | Removed(id: nat, turns: nat, total: nat, aborted: bool, overdue: bool, at: nat)
    | Final(id: nat, listener: Listener, result: Payload)
    | FinalLost(id: nat)

  /** The fields both queues share. `records` is the heap of event records, `queue` holds pointers into
      it; `timer` is the delayed timeout task and `readyTrue`, `readyFalse` count the queued
      ProcessNextOrderedEvent(true) and (false) tasks. */
  datatype Core = Core(
    records: seq<Record>,
    queue: seq<nat>,
    scheduled: bool,
    pendingTimeout: bool,
    timer: Option<nat>,
    readyTrue: nat,
    readyFalse: nat,
    now: nat,
    history: seq<Event>)

  /** Where a thread is inside ScheduleOrderedCommonEvent. */
  datatype SchedulePhase = Look | Flag | Submit

  datatype FinishCall = FinishCall(proxy: Listener, result: Payload, abort: bool, unsubscribe: bool)

  datatype MainPc =
    | Ready
    | MainScheduling(phase: SchedulePhase)
    | Matched(sp: nat, call: FinishCall)
    | Loaded(sp: nat, state: EventState, call: FinishCall)
    | Submitting

  datatype OrderedPc =
    | Idle
    | Draining
    | Finalizing(removed: seq<nat>, next: Option<nat>)
    | Preparing(sp: nat)
    | Notifying(sp: nat, index: nat)
    | Calling(sp: nat, index: nat)
    | Awaiting(sp: nat, index: nat)
    | Checking(sp: nat)
    | OrderedScheduling(phase: SchedulePhase)
    | Expiring(sp: nat, at: nat)

  datatype State = State(core: Core, main: MainPc, ordered: OrderedPc)

  /** What NotifyOrderedEvent meets: a frozen subscriber, a dead proxy, or a call that is made. */
  datatype Outcome = Frozen | NoProxy | Call

  /** Steps of the main queue: publish, finish and unsubscribe. */
  datatype MainAction =
    | Publish(receivers: seq<Receiver>, resultTo: Option<Listener>, result: Payload)
    | MainSchedule
    | MatchFinish(call: FinishCall)
    | LoadState
    | UpdateRecord
    | SubmitNext

  /** Steps of the ordered queue: ProcessNextOrderedEvent and the timeout. `Notify` stores whom the record waits
      for under its lock, `Invoke` is the unlocked call, `Result` stores what came of it; `RunTimer` looks at the
      clock and `Expire` marks the receiver. */
  datatype OrderedAction =
    | RunNext(isSendMsg: bool)
    | RunTimer
    | Expire
    | Drain
    | NotifyFinal(proxy: bool)
    | Prepare
    | Notify(outcome: Outcome)
    | Invoke
    | Result(ok: bool)
    | Check
    | OrderedSchedule

  datatype Action = Tick(elapsed: nat) | Main(main: MainAction) | Ordered(ordered: OrderedAction)

  const EMPTY := Record([], None, IDLE, 0, None, [], false, Payload(0, ""), 0, 0)

  function At(records: seq<Record>, id: nat): Record {
    if id < |records| then records[id] else EMPTY
  }

  function Put(records: seq<Record>, id: nat, r: Record): seq<Record> {
    if id < |records| then records[id := r] else records
  }

  function Init(now: nat): State {
    State(Core([], [], false, false, None, 0, 0, now, []), Ready, Idle)
  }

  function SetTimeout(c: Core): Core {
    if c.pendingTimeout then c else c.(pendingTimeout := true, timer := Some(c.now + TIMEOUT))
  }

  function CancelTimeout(c: Core): Core {
    if c.pendingTimeout then c.(pendingTimeout := false, timer := None) else c
  }

  function Log(c: Core, e: Event): Core {
    c.(history := c.history + [e])
  }

  function Schedule(c: Core, phase: SchedulePhase): (Core, Option<SchedulePhase>) {
    match phase
    case Look => (c, if c.scheduled then None else Some(Flag))
    case Flag => (c.(scheduled := true), Some(Submit))
    case Submit => (c.(readyTrue := c.readyTrue + 1), None)
  }

  function Enqueue(c: Core, r: Record): Core {
    Log(c.(records := c.records + [r], queue := c.queue + [|c.records|]),
        Enqueued(|c.records|, r.receivers, r.resultTo, r.result))
  }

  /** What one pass of ProcessOrderedEventQueueLocked does to the front record before it decides. */
  function ForceFront(c: Core): Core
    requires c.queue != []
  {
    var sp := c.queue[0];
    if Overdue(At(c.records, sp), c.now) then
      Log(c.(records := Put(c.records, sp, HandleTimeout(At(c.records, sp), c.now))), Forced(sp, c.now))
    else c
  }

  predicate ShouldRemove(r: Record, overdue: bool) {
    Exhausted(r) || r.resultAbort || overdue
  }

  function RemoveFront(c: Core, overdue: bool): Core
    requires c.queue != []
  {
    var r := At(c.records, c.queue[0]);
    Log(CancelTimeout(c).(queue := c.queue[1..]),
        Removed(c.queue[0], r.nextReceiver, |r.receivers|, r.resultAbort, overdue, c.now))
  }

  /** The outcome of ProcessOrderedEventQueueLocked: the pointers removed, and the record to go on with. */
  datatype Drained = Drained(core: Core, removed: seq<nat>, next: Option<nat>)

  predicate RemovesFront(c: Core)
    requires c.queue != []
  {
    var overdue := Overdue(At(c.records, c.queue[0]), c.now);
    var r := At(ForceFront(c).records, c.queue[0]);
    r.state == IDLE && ShouldRemove(r, overdue)
  }

  /** The state after the front record was found finished and taken off the queue. */
  function DropFront(c: Core): Core
    requires c.queue != []
  {
    RemoveFront(ForceFront(c), Overdue(At(c.records, c.queue[0]), c.now))
  }

  function DrainQueue(c: Core): Drained
    decreases |c.queue|
  {
    if c.queue == [] then Drained(c, [], None)
    else if RemovesFront(c) then
      var rest := DrainQueue(DropFront(c));
      Drained(rest.core, [c.queue[0]] + rest.removed, rest.next)
    else
      var c1 := ForceFront(c);
      Drained(c1, [], if At(c1.records, c.queue[0]).state == IDLE then Some(c.queue[0]) else None)
  }

  /** GetMatchingOrderedReceiver */
  function MatchFront(c: Core, proxy: Listener): Option<nat> {
    if c.queue != [] && At(c.records, c.queue[0]).curReceiver == Some(proxy) then Some(c.queue[0]) else None
  }

  /** HandleTimeoutReceiver, for a timeout task that read the clock at `at`. */
  function TimeOutFront(c: Core, sp: nat, at: nat): Core {
    var r := At(c.records, sp);
    Log(c.(records := Put(c.records, sp, HandleTimeout(r, at))),
        TimedOut(sp, if r.nextReceiver > 0 then r.nextReceiver - 1 else 0, at))
  }

  /** CurrentOrderedEventTimeout up to its decision: the record whose receiver has had its time, if any. */
  function Timeout(c: Core): (Core, Option<nat>) {
    var c0 := c.(pendingTimeout := false, timer := None);
    if c0.queue == [] then (c0, None)
    else if At(c0.records, c0.queue[0]).receiverTime + TIMEOUT > c0.now then (SetTimeout(c0), None)
    else (c0, Some(c0.queue[0]))
  }

  /** HandleFinalSubscriber for one removed record. */
  function NotifyFinalSubscriber(c: Core, sp: nat, proxy: bool): Core {
    var r := At(c.records, sp);
    match r.resultTo
    case None => c
    case Some(listener) =>
      if !proxy then Log(c, FinalLost(sp))
      else Log(c.(records := Put(c.records, sp, r.(resultTo := None))), Final(sp, listener, r.result))
  }

  function PrepareFront(c: Core, sp: nat): Core {
    var r := At(c.records, sp);
    SetTimeout(Log(c.(records := Put(c.records, sp, PrepareNextReceiver(r, c.now))), Turn(sp, r.nextReceiver, c.now)))
  }

  /** NotifyOrderedEvent up to the call of the receiver: NotifyFrozenSubscriber or PrepareOrderedNotify. */
  function NotifyReceiver(c: Core, sp: nat, index: nat, outcome: Outcome): Core {
    var r := At(c.records, sp);
    if index >= |r.receivers| then c
    else match outcome
      case Frozen => c.(records := Put(c.records, sp, NotifyFrozen(r, index)))
      case NoProxy => c.(records := Put(c.records, sp, PrepareNotify(r, index, false)))
      case Call => c.(records := Put(c.records, sp, PrepareNotify(r, index, true)))
  }

  /** The call itself, outside the record's lock: the receiver is given what the record holds by then. */
  function CallReceiver(c: Core, sp: nat, index: nat): Core {
    var r := At(c.records, sp);
    if index >= |r.receivers| then c else Log(c, Sent(sp, index, r.receivers[index].listener, r.result))
  }

  function ReceiverResult(c: Core, sp: nat, ok: bool): Core {
    c.(records := Put(c.records, sp, HandleResult(At(c.records, sp), ok)))
  }

  function FinishRecord(c: Core, sp: nat, call: FinishCall): Core {
    Log(c.(records := Put(c.records, sp, Finish(At(c.records, sp), call.result, call.abort))),
        Finished(sp, call.result, call.abort))
  }

  /** The arguments FinishReceiverAction is called with: an unsubscribe repeats the record's own values. */
  function Arguments(c: Core, sp: nat, call: FinishCall): FinishCall {
    if call.unsubscribe then
      call.(result := At(c.records, sp).result, abort := At(c.records, sp).resultAbort)
    else call
  }

  predicate MainEnabled(pc: MainPc, a: MainAction) {
    match a
    case Publish(receivers, _, _) => pc.Ready? && ByPriority(receivers)
    case MainSchedule => pc.MainScheduling?
    case MatchFinish(_) => pc.Ready?
    case LoadState => pc.Matched?
    case UpdateRecord => pc.Loaded?
    case SubmitNext => pc.Submitting?
  }

  function MainStep(c: Core, pc: MainPc, a: MainAction): (Core, MainPc)
    requires MainEnabled(pc, a)
  {
    match a
    case Publish(receivers, resultTo, result) =>
      (Enqueue(c, NewRecord(receivers, resultTo, result)), MainScheduling(Look))
    case MainSchedule =>
      var (c1, phase) := Schedule(c, pc.phase);
      (c1, if phase.Some? then MainScheduling(phase.value) else Ready)
    case MatchFinish(call) =>
      (match MatchFront(c, call.proxy)
       case None => (c, Ready)
       case Some(sp) => (c, Matched(sp, Arguments(c, sp, call))))
    case LoadState => (c, Loaded(pc.sp, At(c.records, pc.sp).state, pc.call))
    case UpdateRecord => (FinishRecord(c, pc.sp, pc.call), if pc.state.RECEIVED? then Submitting else Ready)
    case SubmitNext => (c.(readyFalse := c.readyFalse + 1), Ready)
  }

  predicate OrderedEnabled(c: Core, pc: OrderedPc, a: OrderedAction) {
    match a
    case RunNext(isSendMsg) => pc.Idle? && (if isSendMsg then c.readyTrue > 0 else c.readyFalse > 0)
    case RunTimer => pc.Idle? && c.timer.Some? && c.timer.value <= c.now
    case Expire => pc.Expiring?
    case Drain => pc.Draining?
    case NotifyFinal(_) => pc.Finalizing?
    case Prepare => pc.Preparing?
    case Notify(_) => pc.Notifying?
    case Invoke => pc.Calling?
    case Result(_) => pc.Awaiting?
    case Check => pc.Checking?
    case OrderedSchedule => pc.OrderedScheduling?
  }

  function OrderedStep(c: Core, pc: OrderedPc, a: OrderedAction): (Core, OrderedPc)
    requires OrderedEnabled(c, pc, a)
  {
    match a
    case RunNext(isSendMsg) =>
      (if isSendMsg then c.(readyTrue := c.readyTrue - 1, scheduled := false)
       else c.(readyFalse := c.readyFalse - 1), Draining)
    case RunTimer =>
      var (c1, late) := Timeout(c);
      (c1, if late.Some? then Expiring(late.value, c.now) else Idle)
    case Expire => (TimeOutFront(c, pc.sp, pc.at), OrderedScheduling(Look))
    case Drain => (DrainQueue(c).core, Finalizing(DrainQueue(c).removed, DrainQueue(c).next))
    case NotifyFinal(proxy) =>
      if pc.removed != [] then
        (NotifyFinalSubscriber(c, pc.removed[0], proxy), Finalizing(pc.removed[1..], pc.next))
      else (c, if pc.next.Some? then Preparing(pc.next.value) else Idle)
    case Prepare => (PrepareFront(c, pc.sp), Notifying(pc.sp, At(c.records, pc.sp).nextReceiver))
    case Notify(outcome) =>
      (NotifyReceiver(c, pc.sp, pc.index, outcome),
       if outcome.Call? && pc.index < |At(c.records, pc.sp).receivers| then Calling(pc.sp, pc.index)
       else Checking(pc.sp))
    case Invoke => (CallReceiver(c, pc.sp, pc.index), Awaiting(pc.sp, pc.index))
    case Result(ok) => (ReceiverResult(c, pc.sp, ok), Checking(pc.sp))
    case Check =>
      var r := At(c.records, pc.sp);
      if r.curReceiver.None? then
        (c.(records := Put(c.records, pc.sp, r.(state := IDLE))), OrderedScheduling(Look))
      else (c, Idle)
    case OrderedSchedule =>
      var (c1, phase) := Schedule(c, pc.phase);
      (c1, if phase.Some? then OrderedScheduling(phase.value) else Idle)
  }

  predicate Enabled(s: State, a: Action) {
    match a
    case Tick(_) => true
    case Main(m) => MainEnabled(s.main, m)
    case Ordered(o) => OrderedEnabled(s.core, s.ordered, o)
  }

  function Step(s: State, a: Action): State
    requires Enabled(s, a)
  {
    match a
    case Tick(elapsed) => s.(core := s.core.(now := s.core.now + elapsed))
    case Main(m) => var (c, pc) := MainStep(s.core, s.main, m); s.(core := c, main := pc)
    case Ordered(o) => var (c, pc) := OrderedStep(s.core, s.ordered, o); s.(core := c, ordered := pc)
  }

  /** The `i`th action is enabled where it is taken, and the next state follows from it. */
  predicate Follows(states: seq<State>, actions: seq<Action>, i: int)
    requires |states| == |actions| + 1 && 0 <= i < |actions|
  {
    Enabled(states[i], actions[i]) && states[i + 1] == Step(states[i], actions[i])
  }

  ghost predicate Run(states: seq<State>, actions: seq<Action>) {
    && |states| == |actions| + 1
    && (exists now: nat :: states[0] == Init(now))
    && forall i :: 0 <= i < |actions| ==> Follows(states, actions, i)
  }
}
