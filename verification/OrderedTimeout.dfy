/** How long a receiver, and a record, can hold the queue. The timer is armed for a full time limit each
    time, so a receiver that was called while the timer was already running gets almost two limits. */
module OrderedTimeout {
  import opened Wrappers
  import opened OrderedRecords
  import opened OrderedDispatch
  import opened OrderedProgress

  function Front(c: Core): Record {
    if c.queue == [] then EMPTY else At(c.records, c.queue[0])
  }

  /** The timer runs for the turn that is under way, and ends within two limits of its beginning. */
  ghost predicate TimerKnown(c: Core) {
    c.timer.Some? && c.queue != [] && Front(c).nextReceiver > 0 ==>
      && Turn(c.queue[0], Front(c).nextReceiver - 1, Front(c).receiverTime) in c.history
      && Front(c).receiverTime <= c.now
      && c.timer.value <= c.now + TIMEOUT
      && c.timer.value < Front(c).receiverTime + DOUBLE * TIMEOUT
  }

  /** Time-outs come from the timer no earlier than one limit after the turn began; if the timer is punctual
      they come before two. */
  ghost predicate OnTime(h: seq<Event>, e: Event, punctual: bool) {
    e.TimedOut? ==>
      exists r: nat :: Turn(e.id, e.index, r) in h && r + TIMEOUT <= e.at && (punctual ==> e.at < r + DOUBLE * TIMEOUT)
  }

  ghost predicate AllOnTime(h: seq<Event>, punctual: bool) {
    forall k :: 0 <= k < |h| ==> OnTime(h[..k], h[k], punctual)
  }

  lemma OnTimeAppend(h: seq<Event>, e: Event, punctual: bool)
    requires AllOnTime(h, punctual) && OnTime(h, e, punctual)
    ensures AllOnTime(h + [e], punctual)
  {
    var h1 := h + [e];
    forall k | 0 <= k < |h1| ensures OnTime(h1[..k], h1[k], punctual) {
      assert h1[..k] == h[..k];
      if k == |h| { assert h[..k] == h; }
    }
  }

  predicate TimerAhead(c: Core) {
    c.timer.Some? ==> c.now <= c.timer.value
  }

  /** Time passes no further than the moment the timer is due. */
  predicate PunctualTick(c: Core, elapsed: nat) {
    c.timer.Some? ==> c.now + elapsed <= c.timer.value
  }

  ghost predicate PunctualRun(states: seq<State>, actions: seq<Action>) {
    forall i :: 0 <= i < |actions| && i < |states| && actions[i].Tick? ==>
      PunctualTick(states[i].core, actions[i].elapsed)
  }

  lemma TimerMain(s: State, a: MainAction, punctual: bool)
    requires Invariant(s) && TimerKnown(s.core) && MainEnabled(s.main, a) && AllOnTime(s.core.history, punctual)
    ensures var c1 := MainStep(s.core, s.main, a).0;
      TimerKnown(c1) && AllOnTime(c1.history, punctual) && (TimerAhead(s.core) ==> TimerAhead(c1))
  {
    match a
    case Publish(receivers, resultTo, result) =>
      OnTimeAppend(s.core.history, Enqueued(|s.core.records|, receivers, resultTo, result), punctual);
    case UpdateRecord =>
      OnTimeAppend(s.core.history, Finished(s.main.sp, s.main.call.result, s.main.call.abort), punctual);
    case _ =>
  }

  /** A timer task that has decided to give up on a receiver decided so in time. */
  ghost predicate ExpiryKnown(s: State, punctual: bool) {
    s.ordered.Expiring? ==>
      var r, sp, at := At(s.core.records, s.ordered.sp), s.ordered.sp, s.ordered.at;
      && r.nextReceiver > 0 && Turn(sp, r.nextReceiver - 1, r.receiverTime) in s.core.history
      && r.receiverTime + TIMEOUT <= at && (punctual ==> at < r.receiverTime + DOUBLE * TIMEOUT)
  }

  lemma TimerRun(s: State, punctual: bool)
    requires Invariant(s) && TimerKnown(s.core) && OrderedEnabled(s.core, s.ordered, RunTimer)
    requires AllOnTime(s.core.history, punctual) && (punctual ==> TimerAhead(s.core))
    ensures var s1 := Step(s, Ordered(RunTimer));
      && TimerKnown(s1.core) && AllOnTime(s1.core.history, punctual) && TimerAhead(s1.core)
      && ExpiryKnown(s1, punctual)
  {
    var c, r := s.core, Front(s.core);
    assert Turn(c.queue[0], r.nextReceiver - 1, r.receiverTime) in c.history;
  }

  lemma TimerExpire(s: State, punctual: bool)
    requires Invariant(s) && TimerKnown(s.core) && s.ordered.Expiring? && ExpiryKnown(s, punctual)
    requires AllOnTime(s.core.history, punctual) && (punctual ==> TimerAhead(s.core))
    ensures var c1 := TimeOutFront(s.core, s.ordered.sp, s.ordered.at);
      TimerKnown(c1) && AllOnTime(c1.history, punctual) && (punctual ==> TimerAhead(c1))
  {
    var c, r := s.core, At(s.core.records, s.ordered.sp);
    var e := TimedOut(s.ordered.sp, r.nextReceiver - 1, s.ordered.at);
    assert OnTime(c.history, e, punctual);
    OnTimeAppend(c.history, e, punctual);
  }

  lemma TimerPrepare(s: State, punctual: bool)
    requires Invariant(s) && TimerKnown(s.core) && s.ordered.Preparing? && AllOnTime(s.core.history, punctual)
    ensures var c1 := PrepareFront(s.core, s.ordered.sp);
      TimerKnown(c1) && AllOnTime(c1.history, punctual) && (TimerAhead(s.core) ==> TimerAhead(c1))
  {
    var e := Turn(s.ordered.sp, At(s.core.records, s.ordered.sp).nextReceiver, s.core.now);
    OnTimeAppend(s.core.history, e, punctual);
  }

  lemma TimerFinal(s: State, proxy: bool, punctual: bool)
    requires Invariant(s) && TimerKnown(s.core) && s.ordered.Finalizing? && AllOnTime(s.core.history, punctual)
    ensures var c1 := OrderedStep(s.core, s.ordered, NotifyFinal(proxy)).0;
      TimerKnown(c1) && AllOnTime(c1.history, punctual) && (TimerAhead(s.core) ==> TimerAhead(c1))
  {
    if s.ordered.removed != [] {
      var sp := s.ordered.removed[0];
      var r := At(s.core.records, sp);
      OnTimeAppend(s.core.history, FinalLost(sp), punctual);
      if r.resultTo.Some? {
        OnTimeAppend(s.core.history, Final(sp, r.resultTo.value, r.result), punctual);
      }
    }
  }

  lemma TimerNotify(s: State, outcome: Outcome, punctual: bool)
    requires Invariant(s) && TimerKnown(s.core) && s.ordered.Notifying? && AllOnTime(s.core.history, punctual)
    ensures var c1 := NotifyReceiver(s.core, s.ordered.sp, s.ordered.index, outcome);
      TimerKnown(c1) && AllOnTime(c1.history, punctual) && (TimerAhead(s.core) ==> TimerAhead(c1))
  {
  }

  lemma TimerInvoke(s: State, punctual: bool)
    requires Invariant(s) && TimerKnown(s.core) && s.ordered.Calling? && AllOnTime(s.core.history, punctual)
    ensures var c1 := CallReceiver(s.core, s.ordered.sp, s.ordered.index);
      TimerKnown(c1) && AllOnTime(c1.history, punctual) && (TimerAhead(s.core) ==> TimerAhead(c1))
  {
    var r := At(s.core.records, s.ordered.sp);
    OnTimeAppend(s.core.history, Sent(s.ordered.sp, s.ordered.index, r.receivers[s.ordered.index].listener, r.result),
                 punctual);
  }

  /** Steps that leave the turn under way, its times and the timer alone. */
  lemma SameTurn(s: State, a: OrderedAction)
    requires OrderedEnabled(s.core, s.ordered, a) && (a.RunNext? || a.Result? || a.Check? || a.OrderedSchedule?)
    ensures var c, c1 := s.core, OrderedStep(s.core, s.ordered, a).0;
      && c1.history == c.history && c1.queue == c.queue && c1.timer == c.timer && c1.now == c.now
      && Front(c1).nextReceiver == Front(c).nextReceiver && Front(c1).receiverTime == Front(c).receiverTime
      && Front(c1).dispatchTime == Front(c).dispatchTime
  {
  }

  lemma TimerOrdered(s: State, a: OrderedAction, punctual: bool)
    requires Invariant(s) && TimerKnown(s.core) && OrderedEnabled(s.core, s.ordered, a)
    requires AllOnTime(s.core.history, punctual)
    requires a.RunNext? || a.Result? || a.Check? || a.OrderedSchedule?
    ensures var c1 := OrderedStep(s.core, s.ordered, a).0;
      TimerKnown(c1) && AllOnTime(c1.history, punctual) && (TimerAhead(s.core) ==> TimerAhead(c1))
  {
    SameTurn(s, a);
  }

  lemma {:induction false} DrainOnTime(c: Core, punctual: bool)
    requires AllOnTime(c.history, punctual)
    ensures AllOnTime(DrainQueue(c).core.history, punctual)
    decreases |c.queue|
  {
    if c.queue != [] {
      var sp := c.queue[0];
      OnTimeAppend(c.history, Forced(sp, c.now), punctual);
      if RemovesFront(c) {
        var c1 := ForceFront(c);
        var r := At(c1.records, sp);
        var e := Removed(sp, r.nextReceiver, |r.receivers|, r.resultAbort, Overdue(At(c.records, sp), c.now), c.now);
        OnTimeAppend(c1.history, e, punctual);
        DrainOnTime(DropFront(c), punctual);
      }
    }
  }

  lemma TimerDrain(s: State, punctual: bool)
    requires Invariant(s) && TimerKnown(s.core) && s.ordered.Draining? && AllOnTime(s.core.history, punctual)
    ensures var c1 := DrainQueue(s.core).core;
      TimerKnown(c1) && AllOnTime(c1.history, punctual) && (TimerAhead(s.core) ==> TimerAhead(c1))
  {
    DrainOnTime(s.core, punctual);
    DrainStops(s.core);
    DrainFront(s);
    DrainKeepsHistory(s.core);
  }

  /** What is known about the timer in every state of a run. */
  ghost predicate TimerState(s: State, punctual: bool) {
    && TimerKnown(s.core) && AllOnTime(s.core.history, punctual) && ExpiryKnown(s, punctual)
    && (punctual ==> TimerAhead(s.core))
  }

  lemma TimerOrderedStep(s: State, a: OrderedAction, punctual: bool)
    requires Invariant(s) && TimerState(s, punctual) && OrderedEnabled(s.core, s.ordered, a)
    ensures TimerState(Step(s, Ordered(a)), punctual)
  {
    match a
    case Drain => TimerDrain(s, punctual);
    case RunTimer => TimerRun(s, punctual);
    case Expire => TimerExpire(s, punctual);
    case Prepare => TimerPrepare(s, punctual);
    case Notify(outcome) => TimerNotify(s, outcome, punctual);
    case Invoke => TimerInvoke(s, punctual);
    case NotifyFinal(proxy) => TimerFinal(s, proxy, punctual);
    case _ => TimerOrdered(s, a, punctual);
  }

  /** The main queue leaves the turn and its time alone. */
  lemma ExpiryMain(s: State, a: MainAction, punctual: bool)
    requires Invariant(s) && ExpiryKnown(s, punctual) && MainEnabled(s.main, a)
    ensures ExpiryKnown(Step(s, Main(a)), punctual)
  {
  }

  lemma TimerStep(s: State, a: Action, punctual: bool)
    requires Invariant(s) && TimerState(s, punctual) && Enabled(s, a)
    requires punctual && a.Tick? ==> PunctualTick(s.core, a.elapsed)
    ensures TimerState(Step(s, a), punctual)
  {
    match a
    case Tick(_) =>
    case Main(m) => TimerMain(s, m, punctual); ExpiryMain(s, m, punctual);
    case Ordered(o) => TimerOrderedStep(s, o, punctual);
  }

  lemma {:induction false} RunTimed(states: seq<State>, actions: seq<Action>, i: nat, punctual: bool)
    requires Run(states, actions) && i < |states| && (punctual ==> PunctualRun(states, actions))
    ensures TimerState(states[i], punctual)
  {
    if i > 0 {
      RunTimed(states, actions, i - 1, punctual);
      RunInvariant(states, actions, i - 1);
      assert Follows(states, actions, i - 1);
      TimerStep(states[i - 1], actions[i - 1], punctual);
    }
  }

  /** A receiver is timed out by the timer no earlier than TIMEOUT after its turn began and, if the timer is
      punctual, strictly before twice that, although every re-arming waits for a full TIMEOUT. */
  lemma TimeoutBounds(states: seq<State>, actions: seq<Action>, i: nat, k: nat)
    requires Run(states, actions) && i < |states| && k < |states[i].core.history| && states[i].core.history[k].TimedOut?
    ensures var e, h := states[i].core.history[k], states[i].core.history[..k];
      && (exists r: nat :: Turn(e.id, e.index, r) in h && r + TIMEOUT <= e.at)
      && (PunctualRun(states, actions) ==>
            exists r: nat :: Turn(e.id, e.index, r) in h && r + TIMEOUT <= e.at < r + DOUBLE * TIMEOUT)
  {
    var e, h := states[i].core.history[k], states[i].core.history[..k];
    RunTimed(states, actions, i, false);
    assert OnTime(h, e, false);
    if PunctualRun(states, actions) {
      RunTimed(states, actions, i, true);
      assert OnTime(h, e, true);
    }
  }

  // ---- The backstop

  /** Nothing is left to do but to wait. */
  predicate Quiet(s: State) {
    s.core.readyTrue == 0 && s.core.readyFalse == 0 && s.ordered.Idle? && s.main.Ready?
  }

  /** Queued tasks run without delay: time passes only while nothing is left to do. */
  ghost predicate PromptRun(states: seq<State>, actions: seq<Action>) {
    forall i :: 0 <= i < |actions| && i < |states| && actions[i].Tick? && actions[i].elapsed > 0 ==> Quiet(states[i])
  }

  /** The time by which a record that was first dispatched at `start` has finished `turns` turns. */
  function Deadline(start: nat, turns: nat): nat {
    start + DOUBLE * TIMEOUT * turns
  }

  ghost predicate OnSchedule(c: Core) {
    var r := Front(c);
    c.queue != [] && r.nextReceiver > 0 ==>
      && Turn(c.queue[0], 0, r.dispatchTime) in c.history
      && r.dispatchTime <= c.now < Deadline(r.dispatchTime, r.nextReceiver)
      && (c.timer.Some? ==>
            && r.receiverTime <= Deadline(r.dispatchTime, r.nextReceiver - 1)
            && c.timer.value < Deadline(r.dispatchTime, r.nextReceiver)
            && c.timer.value <= c.now + TIMEOUT)
  }

  /** No record is forced out, and one that had a turn leaves before its deadline. */
  ghost predicate InTime(h: seq<Event>, e: Event) {
    && !e.Forced?
    && (e.Removed? && e.turns > 0 ==>
          exists start: nat :: Turn(e.id, 0, start) in h && e.at < Deadline(start, e.total))
  }

  ghost predicate AllInTime(h: seq<Event>) {
    forall k :: 0 <= k < |h| ==> InTime(h[..k], h[k])
  }

  lemma InTimeAppend(h: seq<Event>, e: Event)
    requires AllInTime(h) && InTime(h, e)
    ensures AllInTime(h + [e])
  {
    var h1 := h + [e];
    forall k | 0 <= k < |h1| ensures InTime(h1[..k], h1[k]) {
      assert h1[..k] == h[..k];
      if k == |h| { assert h[..k] == h; }
    }
  }

  ghost predicate Scheduled(c: Core) {
    OnSchedule(c) && AllInTime(c.history)
  }

  lemma ScheduledMain(s: State, a: MainAction)
    requires Invariant(s) && Scheduled(s.core) && MainEnabled(s.main, a)
    ensures Scheduled(MainStep(s.core, s.main, a).0)
  {
    match a
    case Publish(receivers, resultTo, result) =>
      InTimeAppend(s.core.history, Enqueued(|s.core.records|, receivers, resultTo, result));
    case UpdateRecord => InTimeAppend(s.core.history, Finished(s.main.sp, s.main.call.result, s.main.call.abort));
    case _ =>
  }

  lemma ScheduledTimer(s: State)
    requires Invariant(s) && Scheduled(s.core) && OrderedEnabled(s.core, s.ordered, RunTimer)
    ensures Scheduled(Timeout(s.core).0)
  {
  }

  lemma ScheduledExpire(s: State)
    requires Invariant(s) && Scheduled(s.core) && s.ordered.Expiring?
    ensures Scheduled(TimeOutFront(s.core, s.ordered.sp, s.ordered.at))
  {
    var r := At(s.core.records, s.ordered.sp);
    InTimeAppend(s.core.history, TimedOut(s.ordered.sp, r.nextReceiver - 1, s.ordered.at));
  }

  lemma ScheduledPrepare(s: State)
    requires Invariant(s) && Scheduled(s.core) && s.ordered.Preparing?
    ensures Scheduled(PrepareFront(s.core, s.ordered.sp))
  {
    InTimeAppend(s.core.history, Turn(s.ordered.sp, At(s.core.records, s.ordered.sp).nextReceiver, s.core.now));
  }

  lemma ScheduledNotify(s: State, outcome: Outcome)
    requires Invariant(s) && Scheduled(s.core) && s.ordered.Notifying?
    ensures Scheduled(NotifyReceiver(s.core, s.ordered.sp, s.ordered.index, outcome))
  {
  }

  lemma ScheduledInvoke(s: State)
    requires Invariant(s) && Scheduled(s.core) && s.ordered.Calling?
    ensures Scheduled(CallReceiver(s.core, s.ordered.sp, s.ordered.index))
  {
    var r := At(s.core.records, s.ordered.sp);
    InTimeAppend(s.core.history, Sent(s.ordered.sp, s.ordered.index, r.receivers[s.ordered.index].listener, r.result));
  }

  lemma ScheduledFinal(s: State, proxy: bool)
    requires Invariant(s) && Scheduled(s.core) && s.ordered.Finalizing?
    ensures Scheduled(OrderedStep(s.core, s.ordered, NotifyFinal(proxy)).0)
  {
    if s.ordered.removed != [] {
      var sp := s.ordered.removed[0];
      var r := At(s.core.records, sp);
      InTimeAppend(s.core.history, FinalLost(sp));
      if r.resultTo.Some? {
        InTimeAppend(s.core.history, Final(sp, r.resultTo.value, r.result));
      }
    }
  }

  lemma ScheduledOrdered(s: State, a: OrderedAction)
    requires Invariant(s) && Scheduled(s.core) && OrderedEnabled(s.core, s.ordered, a)
    requires a.RunNext? || a.Result? || a.Check? || a.OrderedSchedule?
    ensures Scheduled(OrderedStep(s.core, s.ordered, a).0)
  {
    SameTurn(s, a);
    ScheduledFrame(s.core, OrderedStep(s.core, s.ordered, a).0);
  }

  lemma ScheduledFrame(c: Core, c1: Core)
    requires Scheduled(c) && c1.history == c.history && c1.queue == c.queue && c1.timer == c.timer && c1.now == c.now
    requires Front(c1).nextReceiver == Front(c).nextReceiver && Front(c1).receiverTime == Front(c).receiverTime
    requires Front(c1).dispatchTime == Front(c).dispatchTime
    ensures Scheduled(c1)
  {
  }

  /** The queue from here on: only its first record has ever been dispatched. */
  ghost predicate Waiting(c: Core) {
    && QueueShape(c) && RecordsShape(c.records)
    && forall i :: 0 < i < |c.queue| ==>
         At(c.records, c.queue[i]).nextReceiver == 0 && At(c.records, c.queue[i]).dispatchTime == 0
  }

  /** Where a sweep stands while every record is on schedule. */
  ghost predicate Sweepable(c: Core) {
    && Waiting(c) && Scheduled(c) && (c.timer.Some? ==> c.pendingTimeout)
    && (c.queue != [] && Front(c).nextReceiver == 0 ==> Front(c).dispatchTime == 0)
  }

  /** While every record is on schedule the backstop stays out of it. */
  lemma NotOverdue(c: Core)
    requires Sweepable(c) && c.queue != []
    ensures !Overdue(Front(c), c.now)
  {
    assert RecordShape(Front(c));
  }

  lemma ScheduledDrop(c: Core)
    requires Sweepable(c) && c.queue != [] && RemovesFront(c)
    ensures Sweepable(DropFront(c))
  {
    var sp, r := c.queue[0], Front(c);
    NotOverdue(c);
    DropFrontFacts(c);
    assert RecordShape(r);
    if r.nextReceiver > 0 {
      assert Turn(sp, 0, r.dispatchTime) in c.history;
    }
    InTimeAppend(c.history, Removed(sp, r.nextReceiver, |r.receivers|, r.resultAbort, false, c.now));
  }

  lemma {:induction false} ScheduledDrain(c: Core)
    requires Sweepable(c)
    ensures Scheduled(DrainQueue(c).core)
    decreases |c.queue|
  {
    if c.queue != [] {
      NotOverdue(c);
      if RemovesFront(c) {
        ScheduledDrop(c);
        ScheduledDrain(DropFront(c));
      }
    }
  }

  lemma ScheduledOrderedStep(s: State, a: OrderedAction)
    requires Invariant(s) && Scheduled(s.core) && OrderedEnabled(s.core, s.ordered, a)
    ensures Scheduled(OrderedStep(s.core, s.ordered, a).0)
  {
    match a
    case Drain => ScheduledDrain(s.core);
    case RunTimer => ScheduledTimer(s);
    case Expire => ScheduledExpire(s);
    case Prepare => ScheduledPrepare(s);
    case Notify(outcome) => ScheduledNotify(s, outcome);
    case Invoke => ScheduledInvoke(s);
    case NotifyFinal(proxy) => ScheduledFinal(s, proxy);
    case _ => ScheduledOrdered(s, a);
  }

  lemma ScheduledTick(s: State, elapsed: nat)
    requires Invariant(s) && Scheduled(s.core) && PunctualTick(s.core, elapsed) && (elapsed > 0 ==> Quiet(s))
    ensures Scheduled(s.core.(now := s.core.now + elapsed))
  {
  }

  lemma ScheduledStep(s: State, a: Action)
    requires Invariant(s) && Scheduled(s.core) && Enabled(s, a)
    requires a.Tick? ==> PunctualTick(s.core, a.elapsed) && (a.elapsed > 0 ==> Quiet(s))
    ensures Scheduled(Step(s, a).core)
  {
    match a
    case Tick(elapsed) => ScheduledTick(s, elapsed);
    case Main(m) => ScheduledMain(s, m);
    case Ordered(o) => ScheduledOrderedStep(s, o);
  }

  lemma {:induction false} RunScheduled(states: seq<State>, actions: seq<Action>, i: nat)
    requires Run(states, actions) && i < |states| && PunctualRun(states, actions) && PromptRun(states, actions)
    ensures Scheduled(states[i].core)
  {
    if i > 0 {
      RunScheduled(states, actions, i - 1);
      RunInvariant(states, actions, i - 1);
      assert Follows(states, actions, i - 1);
      ScheduledStep(states[i - 1], actions[i - 1]);
    }
  }

  /** With a punctual timer and prompt tasks the force-receive backstop never fires, every record that had a
      turn leaves less than two limits per receiver after its first dispatch, and no record is ever found in
      the queue at that time. */
  lemma BackstopNeverFires(states: seq<State>, actions: seq<Action>, i: nat)
    requires Run(states, actions) && i < |states| && PunctualRun(states, actions) && PromptRun(states, actions)
    ensures forall k :: 0 <= k < |states[i].core.history| ==>
              InTime(states[i].core.history[..k], states[i].core.history[k])
    ensures forall id :: 0 <= id < |states[i].core.records| && IsFront(states[i].core, id) ==>
              var r := states[i].core.records[id];
              r.nextReceiver > 0 ==> states[i].core.now < Deadline(r.dispatchTime, |r.receivers|)
  {
    RunScheduled(states, actions, i);
    RunInvariant(states, actions, i);
    if states[i].core.queue != [] {
      assert RecordShape(states[i].core.records[states[i].core.queue[0]]);
    }
  }
}
