/** The dispatcher comes to rest. What is asked of it pays for all the steps it will ever take, so with the clock
    stopped and no new request it runs out of work; the clock can then go on, and in the end the queue is empty. */
module OrderedQuiescence {
  import opened Wrappers
  import opened OrderedRecords
  import opened OrderedDispatch
  import opened OrderedProgress
  import opened OrderedWakeUp
  import opened OrderedDelivery
  import opened OrderedTimeout
  import opened OrderedLatency

  // ---- What is left to do

  function TurnsLeft(r: Record): nat {
    if r.nextReceiver < |r.receivers| then |r.receivers| - r.nextReceiver else 0
  }

  /** The turns the records from `lo` on have yet to give. */
  function AllTurns(records: seq<Record>, lo: nat): nat
    decreases |records| - lo
  {
    if lo >= |records| then 0 else TurnsLeft(records[lo]) + AllTurns(records, lo + 1)
  }

  // The steps one turn takes, and those of a task, a timer that is due and a request.
  const TURN := 11
  const TASK := 3
  const TIMER := 8
  const REQUEST := 6

  function SchedulingWork(phase: SchedulePhase): nat {
    match phase
    case Look => TASK + 3
    case Flag => TASK + 2
    case Submit => TASK + 1
  }

  function MainWork(pc: MainPc): nat {
    match pc
    case Ready => 0
    case MainScheduling(phase) => SchedulingWork(phase)
    case Matched(_, _) => TASK + 3
    case Loaded(_, _, _) => TASK + 2
    case Submitting => TASK + 1
  }

  function OrderedWork(pc: OrderedPc): nat {
    match pc
    case Idle => 0
    case Draining => 2
    case Finalizing(removed, _) => |removed| + 1
    case Preparing(_) => 0
    case Notifying(_, _) => 10
    case Calling(_, _) => 9
    case Awaiting(_, _) => 8
    case Checking(_) => 7
    case OrderedScheduling(phase) => SchedulingWork(phase)
    case Expiring(_, _) => 7
  }

  predicate TimerDue(c: Core) {
    c.timer.Some? && c.timer.value <= c.now
  }

  function QueueWork(c: Core): nat {
    TURN * AllTurns(c.records, if Head(c) < 0 then 0 else Head(c)) + |c.queue|
  }

  function TaskWork(c: Core): nat {
    TASK * (c.readyTrue + c.readyFalse) + if TimerDue(c) then TIMER else 0
  }

  /** A bound on the steps the dispatcher can take by itself. */
  function Work(s: State): nat {
    QueueWork(s.core) + TaskWork(s.core) + MainWork(s.main) + OrderedWork(s.ordered)
  }

  /** A step the dispatcher takes by itself: time does not pass and nothing new is asked of it. */
  predicate Internal(a: Action) {
    match a
    case Tick(_) => false
    case Main(m) => !m.Publish? && !m.MatchFinish?
    case Ordered(_) => true
  }

  /** What the rest of the world adds: a publication all the turns of its receivers, a finish one task, and the
      passing of time a timer that becomes due. */
  function Cost(a: Action): nat {
    match a
    case Tick(_) => TIMER
    case Main(Publish(receivers, _, _)) => TURN * |receivers| + REQUEST + 1
    case Main(MatchFinish(_)) => REQUEST
    case _ => 0
  }

  function Own(a: Action): nat {
    if Internal(a) then 1 else 0
  }

  // ---- Turns

  lemma {:induction false} TurnsSame(records: seq<Record>, records': seq<Record>, lo: nat)
    requires |records| == |records'|
    requires forall id :: lo <= id < |records| ==> TurnsLeft(records'[id]) == TurnsLeft(records[id])
    ensures AllTurns(records', lo) == AllTurns(records, lo)
    decreases |records| - lo
  {
    if lo < |records| {
      TurnsSame(records, records', lo + 1);
    }
  }

  lemma {:induction false} TurnsAppend(records: seq<Record>, r: Record, lo: nat)
    requires lo <= |records|
    ensures AllTurns(records + [r], lo) == AllTurns(records, lo) + TurnsLeft(r)
    decreases |records| - lo
  {
    if lo < |records| {
      TurnsAppend(records, r, lo + 1);
    } else {
      assert AllTurns(records + [r], lo + 1) == 0;
    }
  }

  lemma {:induction false} TurnsLater(records: seq<Record>, lo: nat, hi: nat)
    requires lo <= hi
    ensures AllTurns(records, hi) <= AllTurns(records, lo)
    decreases hi - lo
  {
    if lo < hi {
      TurnsLater(records, lo + 1, hi);
    }
  }

  lemma TurnTaken(records: seq<Record>, lo: nat, r: Record)
    requires lo < |records| && TurnsLeft(r) + 1 == TurnsLeft(records[lo])
    ensures AllTurns(records[lo := r], lo) + 1 == AllTurns(records, lo)
  {
    TurnsSame(records, records[lo := r], lo + 1);
  }

  /** The queue, and how many turns each record has left, stay as they are. */
  ghost predicate KeepsTurns(c: Core, c1: Core) {
    && c1.queue == c.queue && |c1.records| == |c.records|
    && forall id :: 0 <= id < |c.records| ==> TurnsLeft(c1.records[id]) == TurnsLeft(c.records[id])
  }

  lemma SameTurns(c: Core, c1: Core)
    requires QueueShape(c) && KeepsTurns(c, c1)
    ensures QueueWork(c1) == QueueWork(c)
  {
    TurnsSame(c.records, c1.records, Head(c));
  }

  lemma TurnsPut(c: Core, sp: nat, r: Record)
    requires TurnsLeft(r) == TurnsLeft(At(c.records, sp))
    ensures KeepsTurns(c, c.(records := Put(c.records, sp, r)))
  {
  }

  lemma TurnsNotify(c: Core, sp: nat, index: nat, outcome: Outcome)
    ensures KeepsTurns(c, NotifyReceiver(c, sp, index, outcome))
  {
    var r := At(c.records, sp);
    if index < |r.receivers| {
      TurnsPut(c, sp, if outcome.Frozen? then NotifyFrozen(r, index) else PrepareNotify(r, index, outcome.Call?));
    }
  }

  /** Only a sweep and a turn change how many turns are left. */
  lemma TurnsOrdered(s: State, a: OrderedAction)
    requires OrderedEnabled(s.core, s.ordered, a) && !a.Drain? && !a.Prepare?
    ensures KeepsTurns(s.core, OrderedStep(s.core, s.ordered, a).0)
  {
    var c, pc := s.core, s.ordered;
    match a
    case NotifyFinal(_) =>
      if pc.removed != [] { TurnsPut(c, pc.removed[0], At(c.records, pc.removed[0]).(resultTo := None)); }
    case Notify(outcome) => TurnsNotify(c, pc.sp, pc.index, outcome);
    case Result(ok) => TurnsPut(c, pc.sp, HandleResult(At(c.records, pc.sp), ok));
    case Expire => TurnsPut(c, pc.sp, HandleTimeout(At(c.records, pc.sp), pc.at));
    case Check => TurnsPut(c, pc.sp, At(c.records, pc.sp).(state := IDLE));
    case _ =>
  }

  // ---- Every step is paid for

  lemma QueueWorkDrain(c: Core)
    requires QueueShape(c)
    ensures var d := DrainQueue(c); QueueWork(d.core) + |d.removed| <= QueueWork(c)
  {
    var c1 := DrainQueue(c).core;
    DrainPops(c);
    forall id | 0 <= id < |c.records| ensures TurnsLeft(c1.records[id]) == TurnsLeft(c.records[id]) {
      DrainRecords(c, id);
    }
    TurnsSame(c.records, c1.records, Head(c));
    TurnsLater(c1.records, Head(c), Head(c1));
  }

  lemma TaskWorkDrain(c: Core)
    requires QueueShape(c)
    ensures TaskWork(DrainQueue(c).core) <= TaskWork(c)
  {
    DrainStops(c);
  }

  lemma WorkDrain(s: State)
    requires Shape(s) && s.ordered.Draining?
    ensures Work(Step(s, Ordered(Drain))) < Work(s)
  {
    QueueWorkDrain(s.core);
    TaskWorkDrain(s.core);
  }

  lemma WorkPrepare(s: State)
    requires Invariant(s) && s.ordered.Preparing?
    ensures Work(Step(s, Ordered(Prepare))) < Work(s)
  {
    var c, sp := s.core, s.ordered.sp;
    var r := PrepareNextReceiver(At(c.records, sp), c.now);
    assert RecordShape(At(c.records, sp));
    TurnTaken(c.records, sp, r);
  }

  /** What a step does to the tasks, the timer and the two threads. */
  lemma PhaseWork(c: Core, pc: OrderedPc, a: OrderedAction)
    requires OrderedEnabled(c, pc, a) && !a.Drain? && !a.Prepare?
    ensures var (c1, pc1) := OrderedStep(c, pc, a); TaskWork(c1) + OrderedWork(pc1) < TaskWork(c) + OrderedWork(pc)
  {
    match a
    case RunTimer => TimerWork(c);
    case RunNext(_) =>
    case OrderedSchedule =>
    case _ => TurnKeepsTasks(c, pc, a);
  }

  lemma TurnKeepsTasks(c: Core, pc: OrderedPc, a: OrderedAction)
    requires OrderedEnabled(c, pc, a)
    requires a.NotifyFinal? || a.Notify? || a.Invoke? || a.Result? || a.Expire? || a.Check?
    ensures TaskWork(OrderedStep(c, pc, a).0) == TaskWork(c)
  {
  }

  /** A timer that has run is either armed anew or gone. */
  lemma TimerWork(c: Core)
    requires TimerDue(c)
    ensures TaskWork(Timeout(c).0) + TIMER == TaskWork(c)
  {
  }

  lemma WorkOrdered(s: State, a: OrderedAction)
    requires Invariant(s) && OrderedEnabled(s.core, s.ordered, a)
    ensures Work(Step(s, Ordered(a))) < Work(s)
  {
    if a.Drain? {
      WorkDrain(s);
    } else if a.Prepare? {
      WorkPrepare(s);
    } else {
      TurnsOrdered(s, a);
      SameTurns(s.core, OrderedStep(s.core, s.ordered, a).0);
      PhaseWork(s.core, s.ordered, a);
    }
  }

  lemma WorkMain(s: State, a: MainAction)
    requires Invariant(s) && MainEnabled(s.main, a)
    ensures Work(Step(s, Main(a))) + Own(Main(a)) <= Work(s) + Cost(Main(a))
  {
    match a
    case Publish(receivers, resultTo, result) => WorkPublish(s.core, NewRecord(receivers, resultTo, result));
    case UpdateRecord => WorkFinish(s.core, s.main.sp, s.main.call);
    case _ => WorkMainOwn(s.core, s.main, a);
  }

  lemma WorkMainOwn(c: Core, pc: MainPc, a: MainAction)
    requires MainEnabled(pc, a) && !a.Publish? && !a.UpdateRecord?
    ensures var (c1, pc1) := MainStep(c, pc, a);
      && QueueWork(c1) == QueueWork(c)
      && TaskWork(c1) + MainWork(pc1) + Own(Main(a)) <= TaskWork(c) + MainWork(pc) + Cost(Main(a))
  {
  }

  lemma WorkPublish(c: Core, r: Record)
    requires QueueShape(c) && r.nextReceiver == 0
    ensures QueueWork(Enqueue(c, r)) == QueueWork(c) + TURN * |r.receivers| + 1
    ensures TaskWork(Enqueue(c, r)) == TaskWork(c)
  {
    TurnsAppend(c.records, r, Head(c));
  }

  lemma WorkFinish(c: Core, sp: nat, call: FinishCall)
    requires QueueShape(c)
    ensures QueueWork(FinishRecord(c, sp, call)) == QueueWork(c) && TaskWork(FinishRecord(c, sp, call)) == TaskWork(c)
  {
    TurnsPut(c, sp, Finish(At(c.records, sp), call.result, call.abort));
    SameTurns(c, FinishRecord(c, sp, call));
  }

  /** Each step of its own lessens the work by one at least, and a request adds no more than its cost. */
  lemma WorkStep(s: State, a: Action)
    requires Invariant(s) && Enabled(s, a)
    ensures Work(Step(s, a)) + Own(a) <= Work(s) + Cost(a)
  {
    match a
    case Tick(_) =>
    case Main(m) => WorkMain(s, m);
    case Ordered(o) => WorkOrdered(s, o);
  }

  // ---- Over runs

  /** The steps of its own among the actions from `m` up to, not including, `i`. */
  function OwnSteps(actions: seq<Action>, m: nat, i: nat): nat
    requires m <= i <= |actions|
    decreases i
  {
    if m == i then 0 else OwnSteps(actions, m, i - 1) + Own(actions[i - 1])
  }

  function Costs(actions: seq<Action>, m: nat, i: nat): nat
    requires m <= i <= |actions|
    decreases i
  {
    if m == i then 0 else Costs(actions, m, i - 1) + Cost(actions[i - 1])
  }

  /** From any state of a run on, the steps the dispatcher takes are no more than the work it had and what was
      asked of it since. */
  lemma {:induction false} StepsPaidFor(states: seq<State>, actions: seq<Action>, m: nat, i: nat)
    requires Run(states, actions) && m <= i < |states|
    ensures OwnSteps(actions, m, i) + Work(states[i]) <= Work(states[m]) + Costs(actions, m, i)
  {
    if m < i {
      StepsPaidFor(states, actions, m, i - 1);
      RunInvariant(states, actions, i - 1);
      assert Follows(states, actions, i - 1);
      WorkStep(states[i - 1], actions[i - 1]);
    }
  }

  /** With the clock stopped and nothing asked of it, the dispatcher takes no more steps than the work it has. */
  lemma ComesToRest(states: seq<State>, actions: seq<Action>, m: nat, i: nat)
    requires Run(states, actions) && m <= i < |states|
    requires forall k :: m <= k < i ==> Internal(actions[k])
    ensures i - m <= Work(states[m]) - Work(states[i])
  {
    StepsPaidFor(states, actions, m, i);
    AllOwn(actions, m, i);
  }

  lemma {:induction false} AllOwn(actions: seq<Action>, m: nat, i: nat)
    requires m <= i <= |actions| && forall k :: m <= k < i ==> Internal(actions[k])
    ensures OwnSteps(actions, m, i) == i - m && Costs(actions, m, i) == 0
  {
    if m < i {
      AllOwn(actions, m, i - 1);
    }
  }

  /** Nothing is left to do but to wait, for a request or for the timer. */
  predicate Settled(s: State) {
    Quiet(s) && !TimerDue(s.core)
  }

  function NextMain(pc: MainPc): MainAction
    requires !pc.Ready?
  {
    match pc
    case MainScheduling(_) => MainSchedule
    case Matched(_, _) => LoadState
    case Loaded(_, _, _) => UpdateRecord
    case Submitting => SubmitNext
  }

  function NextOrdered(pc: OrderedPc): OrderedAction
    requires !pc.Idle?
  {
    match pc
    case Draining => Drain
    case Finalizing(_, _) => NotifyFinal(true)
    case Preparing(_) => Prepare
    case Notifying(_, _) => Notify(Call)
    case Calling(_, _) => Invoke
    case Awaiting(_, _) => Result(true)
    case Checking(_) => Check
    case OrderedScheduling(_) => OrderedSchedule
    case Expiring(_, _) => Expire
  }

  /** A step the dispatcher can take in a state that has not settled. */
  function NextOwn(s: State): (a: Action)
    requires !Settled(s)
    ensures Internal(a) && Enabled(s, a)
  {
    if !s.main.Ready? then Main(NextMain(s.main))
    else if !s.ordered.Idle? then Ordered(NextOrdered(s.ordered))
    else if s.core.readyTrue > 0 then Ordered(RunNext(true))
    else if s.core.readyFalse > 0 then Ordered(RunNext(false))
    else Ordered(RunTimer)
  }

  /** The dispatcher can take a step of its own exactly if it has not settled. */
  lemma RestsExactly(s: State)
    ensures Settled(s) <==> !exists a :: Internal(a) && Enabled(s, a)
  {
    if !Settled(s) {
      assert Internal(NextOwn(s)) && Enabled(s, NextOwn(s));
    }
  }

  /** Once it has settled, the queue is empty, or its front record has been dispatched and the timer runs. */
  lemma SettledMeans(states: seq<State>, actions: seq<Action>, i: nat)
    requires Run(states, actions) && i < |states| && Settled(states[i])
    ensures var c := states[i].core; c.queue != [] ==>
      c.timer.Some? && c.now < c.timer.value && At(c.records, c.queue[0]).nextReceiver > 0
  {
    RunInvariant(states, actions, i);
  }

  /** The run goes on with steps of the dispatcher and the passing of time alone. */
  ghost predicate Unasked(states: seq<State>, actions: seq<Action>, states1: seq<State>, actions1: seq<Action>) {
    && Run(states1, actions1)
    && |states| <= |states1| && states1[..|states|] == states
    && |actions| <= |actions1| && actions1[..|actions|] == actions
    && forall i :: |actions| <= i < |actions1| ==> Internal(actions1[i]) || actions1[i].Tick?
  }

  ghost predicate Timely(states: seq<State>, actions: seq<Action>) {
    PunctualRun(states, actions) && PromptRun(states, actions)
  }

  lemma TakeOwn(states: seq<State>, actions: seq<Action>) returns (states1: seq<State>, actions1: seq<Action>)
    requires Run(states, actions) && Timely(states, actions) && !Settled(states[|states| - 1])
    ensures Unasked(states, actions, states1, actions1) && Timely(states1, actions1)
    ensures Work(states1[|states1| - 1]) < Work(states[|states| - 1])
    ensures states1[|states1| - 1].core.now == states[|states| - 1].core.now
  {
    var s := states[|states| - 1];
    RunInvariant(states, actions, |states| - 1);
    WorkStep(s, NextOwn(s));
    OwnKeepsTime(s, NextOwn(s));
    states1, actions1 := Extend(states, actions, NextOwn(s));
  }

  lemma OwnKeepsTime(s: State, a: Action)
    requires QueueShape(s.core) && Enabled(s, a) && Internal(a)
    ensures Step(s, a).core.now == s.core.now
  {
    if a == Ordered(Drain) {
      DrainStops(s.core);
    } else if a.Ordered? {
      OrderedKeepsTime(s.core, s.ordered, a.ordered);
    }
  }

  lemma OrderedKeepsTime(c: Core, pc: OrderedPc, a: OrderedAction)
    requires OrderedEnabled(c, pc, a) && !a.Drain?
    ensures OrderedStep(c, pc, a).0.now == c.now
  {
  }

  lemma UnaskedChain(states: seq<State>, actions: seq<Action>, states1: seq<State>, actions1: seq<Action>,
                     states2: seq<State>, actions2: seq<Action>)
    requires Unasked(states, actions, states1, actions1) && Unasked(states1, actions1, states2, actions2)
    ensures Unasked(states, actions, states2, actions2)
  {
    assert states2[..|states|] == states2[..|states1|][..|states|];
    assert actions2[..|actions|] == actions2[..|actions1|][..|actions|];
    forall i | |actions| <= i < |actions2| ensures Internal(actions2[i]) || actions2[i].Tick? {
      if i < |actions1| { assert actions2[i] == actions1[i]; }
    }
  }

  /** Every timely run goes on, without time passing and nothing asked, until it has settled. */
  lemma {:induction false} Settles(states: seq<State>, actions: seq<Action>)
      returns (states1: seq<State>, actions1: seq<Action>)
    requires Run(states, actions) && Timely(states, actions)
    ensures Unasked(states, actions, states1, actions1) && Timely(states1, actions1)
    ensures Settled(states1[|states1| - 1])
    ensures states1[|states1| - 1].core.now == states[|states| - 1].core.now
    decreases Work(states[|states| - 1])
  {
    if Settled(states[|states| - 1]) {
      states1, actions1 := states, actions;
    } else {
      var states2, actions2 := TakeOwn(states, actions);
      states1, actions1 := Settles(states2, actions2);
      UnaskedChain(states, actions, states2, actions2, states1, actions1);
    }
  }

  lemma TakeTick(states: seq<State>, actions: seq<Action>, elapsed: nat)
      returns (states1: seq<State>, actions1: seq<Action>)
    requires Run(states, actions) && Timely(states, actions) && Quiet(states[|states| - 1])
    requires PunctualTick(states[|states| - 1].core, elapsed)
    ensures Unasked(states, actions, states1, actions1) && Timely(states1, actions1)
    ensures states1[|states1| - 1].core.now == states[|states| - 1].core.now + elapsed
  {
    states1, actions1 := Extend(states, actions, Tick(elapsed));
  }

  /** The clock is never held up: every timely run can go on, with nothing asked, until it reads `t`. */
  lemma {:induction false} ClockReaches(states: seq<State>, actions: seq<Action>, t: nat)
      returns (states1: seq<State>, actions1: seq<Action>)
    requires Run(states, actions) && Timely(states, actions) && states[|states| - 1].core.now <= t
    ensures Unasked(states, actions, states1, actions1) && Timely(states1, actions1)
    ensures Settled(states1[|states1| - 1]) && states1[|states1| - 1].core.now == t
    decreases t - states[|states| - 1].core.now
  {
    states1, actions1 := Settles(states, actions);
    var c := states1[|states1| - 1].core;
    if c.now < t {
      var next := if c.timer.Some? && c.timer.value < t then c.timer.value else t;
      var states2, actions2 := TakeTick(states1, actions1, next - c.now);
      UnaskedChain(states, actions, states1, actions1, states2, actions2);
      states1, actions1 := ClockReaches(states2, actions2, t);
      UnaskedChain(states, actions, states2, actions2, states1, actions1);
    }
  }

  /** The time limit of everything that is queued. */
  function DueBy(c: Core): nat {
    Start(c) + Budget(c.records, if Head(c) < 0 then 0 else Head(c), |c.records|)
  }

  /** Left to itself the dispatcher empties its queue. */
  lemma QueueEmpties(states: seq<State>, actions: seq<Action>) returns (states1: seq<State>, actions1: seq<Action>)
    requires Run(states, actions) && Timely(states, actions)
    ensures Unasked(states, actions, states1, actions1) && Timely(states1, actions1)
    ensures states1[|states1| - 1].core.queue == []
  {
    var n, c := |states| - 1, states[|states| - 1].core;
    RunInvariant(states, actions, n);
    RunScheduled(states, actions, n);
    if c.queue == [] {
      states1, actions1 := states, actions;
    } else {
      var due := DueBy(c);
      DueNow(c, |c.records| - 1, due);
      states1, actions1 := ClockReaches(states, actions, due + 1);
      assert states1[n] == states[n];
      LeftBy(states1, actions1, n, due);
    }
  }

  /** Once nothing is published any more, the queue is empty as soon as its budget is used up. */
  lemma LeftBy(states: seq<State>, actions: seq<Action>, n: nat, due: nat)
    requires Run(states, actions) && Timely(states, actions) && n < |states| && states[n].core.queue != []
    requires forall i :: n <= i < |actions| ==> !(actions[i].Main? && actions[i].main.Publish?)
    requires due == DueBy(states[n].core)
    requires states[|states| - 1].core.now > due
    ensures states[|states| - 1].core.queue == []
  {
    var c, m := states[n].core, |states| - 1;
    var id := |c.records| - 1;
    RunInvariant(states, actions, n);
    DueUpTo(states, actions, n, m, id, due);
    SameRecords(states, actions, n, m);
    RunInvariant(states, actions, m);
    RunScheduled(states, actions, m);
    if states[m].core.queue != [] {
      DueNow(states[m].core, id, due);
    }
  }

  lemma {:induction false} SameRecords(states: seq<State>, actions: seq<Action>, n: nat, m: nat)
    requires Run(states, actions) && n <= m < |states|
    requires forall i :: n <= i < |actions| ==> !(actions[i].Main? && actions[i].main.Publish?)
    ensures |states[m].core.records| == |states[n].core.records|
  {
    if n < m {
      SameRecords(states, actions, n, m - 1);
      RunInvariant(states, actions, m - 1);
      assert Follows(states, actions, m - 1);
      PublishAlone(states[m - 1], actions[m - 1]);
    }
  }

  lemma PublishAlone(s: State, a: Action)
    requires Invariant(s) && Enabled(s, a) && !(a.Main? && a.main.Publish?)
    ensures |Step(s, a).core.records| == |s.core.records|
  {
    if a == Ordered(Drain) {
      DrainPops(s.core);
    } else if a.Ordered? {
      OrderedKeeps(s, a.ordered);
    }
  }
}
