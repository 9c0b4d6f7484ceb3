/** How long an event can stay in the queue: with punctual timers and prompt tasks, no longer than two time limits for
    every receiver of the events published before it and of its own. */
module OrderedLatency {
  import opened Wrappers
  import opened OrderedRecords
  import opened OrderedDispatch
  import opened OrderedProgress
  import opened OrderedDelivery
  import opened OrderedTimeout

  /** Two time limits for every receiver of the records from `lo` up to, not including, `hi`. */
  function Budget(records: seq<Record>, lo: nat, hi: nat): nat
    requires hi <= |records|
    decreases hi - lo
  {
    if lo >= hi then 0 else DOUBLE * TIMEOUT * |records[lo].receivers| + Budget(records, lo + 1, hi)
  }

  /** The same receivers in every record that both sequences have. */
  ghost predicate SameReceivers(records: seq<Record>, records': seq<Record>) {
    |records| <= |records'| && forall id :: 0 <= id < |records| ==> records'[id].receivers == records[id].receivers
  }

  lemma {:induction false} BudgetFixed(records: seq<Record>, records': seq<Record>, lo: nat, hi: nat)
    requires SameReceivers(records, records') && hi <= |records|
    ensures Budget(records', lo, hi) == Budget(records, lo, hi)
    decreases hi - lo
  {
    if lo < hi {
      BudgetFixed(records, records', lo + 1, hi);
    }
  }

  /** The time from which the front record's receivers are counted. */
  function Start(c: Core): nat {
    if Front(c).nextReceiver > 0 then Front(c).dispatchTime else c.now
  }

  /** As long as the record is queued, it and those ahead of it will be through by `due`. */
  ghost predicate Due(c: Core, id: nat, due: nat) {
    0 <= Head(c) <= id < |c.records| ==> Start(c) + Budget(c.records, Head(c), id + 1) <= due
  }

  /** A step that keeps the queue's head and starts the front record's time now, if at all. */
  lemma DueFrame(c: Core, c1: Core, id: nat, due: nat)
    requires Due(c, id, due) && id < |c.records| && 0 <= Head(c) == Head(c1) && SameReceivers(c.records, c1.records)
    requires Head(c) <= id ==> Start(c1) <= Start(c)
    ensures Due(c1, id, due)
  {
    if Head(c) <= id {
      BudgetFixed(c.records, c1.records, Head(c), id + 1);
    }
  }

  lemma DueMain(s: State, a: MainAction, id: nat, due: nat)
    requires Invariant(s) && Due(s.core, id, due) && id < |s.core.records| && MainEnabled(s.main, a)
    ensures Due(MainStep(s.core, s.main, a).0, id, due)
  {
    var c1 := MainStep(s.core, s.main, a).0;
    if Head(s.core) <= id {
      assert s.core.queue != [] && c1.queue[0] == s.core.queue[0];
    }
    DueFrame(s.core, c1, id, due);
  }

  lemma StartPut(c: Core, sp: nat, r: Record)
    requires r.nextReceiver == At(c.records, sp).nextReceiver && r.dispatchTime == At(c.records, sp).dispatchTime
    ensures Start(c.(records := Put(c.records, sp, r))) == Start(c)
  {
  }

  /** A record's time starts with its first turn and never again. */
  lemma StartPrepare(s: State)
    requires Invariant(s) && s.ordered.Preparing?
    ensures Start(PrepareFront(s.core, s.ordered.sp)) == Start(s.core)
  {
  }

  lemma StartNotify(c: Core, sp: nat, index: nat, outcome: Outcome)
    ensures Start(NotifyReceiver(c, sp, index, outcome)) == Start(c)
  {
    var r := At(c.records, sp);
    if index < |r.receivers| {
      StartPut(c, sp, if outcome.Frozen? then NotifyFrozen(r, index) else PrepareNotify(r, index, outcome.Call?));
    }
  }

  lemma StartOrdered(s: State, a: OrderedAction)
    requires Invariant(s) && OrderedEnabled(s.core, s.ordered, a) && !a.Drain? && !a.Prepare?
    ensures Start(OrderedStep(s.core, s.ordered, a).0) == Start(s.core)
  {
    var c, pc := s.core, s.ordered;
    match a
    case NotifyFinal(proxy) =>
      if pc.removed != [] { StartPut(c, pc.removed[0], At(c.records, pc.removed[0]).(resultTo := None)); }
    case Notify(outcome) => StartNotify(c, pc.sp, pc.index, outcome);
    case Result(ok) => StartPut(c, pc.sp, HandleResult(At(c.records, pc.sp), ok));
    case Expire => StartPut(c, pc.sp, HandleTimeout(At(c.records, pc.sp), pc.at));
    case Check => StartPut(c, pc.sp, At(c.records, pc.sp).(state := IDLE));
    case _ =>
  }

  lemma DueOrdered(s: State, a: OrderedAction, id: nat, due: nat)
    requires Invariant(s) && Due(s.core, id, due) && id < |s.core.records|
    requires OrderedEnabled(s.core, s.ordered, a) && !a.Drain?
    ensures Due(OrderedStep(s.core, s.ordered, a).0, id, due)
  {
    OrderedKeeps(s, a);
    if a.Prepare? { StartPrepare(s); } else { StartOrdered(s, a); }
    DueFrame(s.core, OrderedStep(s.core, s.ordered, a).0, id, due);
  }

  /** A record that is on schedule leaves before its share of the budget is used up. */
  lemma DueDrop(c: Core, id: nat, due: nat)
    requires Sweepable(c) && Due(c, id, due) && c.queue != [] && RemovesFront(c)
    ensures Due(DropFront(c), id, due)
  {
    NotOverdue(c);
    DropFrontFacts(c);
    var c1 := DropFront(c);
    assert c.records[c.queue[0]] == Front(c) && RecordShape(Front(c));
    if Head(c1) <= id < |c.records| {
      BudgetFixed(c.records, c1.records, Head(c1), id + 1);
      assert c1.queue != [] && c1.queue[0] == c.queue[1];
    }
  }

  lemma {:induction false} DueDrain(c: Core, id: nat, due: nat)
    requires Sweepable(c) && Due(c, id, due)
    ensures Due(DrainQueue(c).core, id, due)
    decreases |c.queue|
  {
    if c.queue != [] {
      NotOverdue(c);
      if RemovesFront(c) {
        DueDrop(c, id, due);
        ScheduledDrop(c);
        DueDrain(DropFront(c), id, due);
      }
    }
  }

  lemma DueStep(s: State, a: Action, id: nat, due: nat)
    requires Invariant(s) && Scheduled(s.core) && Due(s.core, id, due) && id < |s.core.records| && Enabled(s, a)
    requires a.Tick? && a.elapsed > 0 ==> Quiet(s)
    ensures Due(Step(s, a).core, id, due)
  {
    match a
    case Tick(_) =>
    case Main(m) => DueMain(s, m, id, due);
    case Ordered(o) => if o.Drain? { DueDrain(s.core, id, due); } else { DueOrdered(s, o, id, due); }
  }

  lemma {:induction false} DueUpTo(states: seq<State>, actions: seq<Action>, m: nat, i: nat, id: nat, due: nat)
    requires Run(states, actions) && PunctualRun(states, actions) && PromptRun(states, actions)
    requires m <= i < |states| && id < |states[m].core.records| && Due(states[m].core, id, due)
    ensures id < |states[i].core.records| && Due(states[i].core, id, due)
  {
    if m < i {
      DueUpTo(states, actions, m, i - 1, id, due);
      RunInvariant(states, actions, i - 1);
      RunScheduled(states, actions, i - 1);
      assert Follows(states, actions, i - 1);
      DueStep(states[i - 1], actions[i - 1], id, due);
      RecordsStay(states[i - 1], actions[i - 1]);
    }
  }

  lemma RecordsStay(s: State, a: Action)
    requires Invariant(s) && Enabled(s, a)
    ensures |s.core.records| <= |Step(s, a).core.records|
  {
    if a == Ordered(Drain) {
      DrainPops(s.core);
    } else if a.Ordered? {
      OrderedKeeps(s, a.ordered);
    }
  }

  /** A published event is out of the queue once two time limits have gone by for every receiver of the events that
      were queued when it was published, and of its own. */
  lemma LeavesInTime(states: seq<State>, actions: seq<Action>, m: nat, i: nat)
    requires Run(states, actions) && PunctualRun(states, actions) && PromptRun(states, actions)
    requires m < i < |states| && actions[m].Main? && actions[m].main.Publish?
    ensures var c, c1, id := states[m].core, states[m + 1].core, |states[m].core.records|;
      && id < |c1.records| && c1.records[id].receivers == actions[m].main.receivers && 0 <= Head(c) <= id
      && (Head(states[i].core) <= id ==> states[i].core.now <= c.now + Budget(c1.records, Head(c), id + 1))
  {
    var c, id := states[m].core, |states[m].core.records|;
    assert Follows(states, actions, m);
    RunInvariant(states, actions, m);
    RunScheduled(states, actions, m);
    var c1 := states[m + 1].core;
    var due := c.now + Budget(c1.records, Head(c), id + 1);
    assert Start(c1) <= c.now;
    DueUpTo(states, actions, m + 1, i, id, due);
    RunInvariant(states, actions, i);
    RunScheduled(states, actions, i);
    if Head(states[i].core) <= id {
      DueNow(states[i].core, id, due);
    }
  }

  /** While the record is queued the time it is due has not passed. */
  lemma DueNow(c: Core, id: nat, due: nat)
    requires QueueShape(c) && RecordsShape(c.records) && OnSchedule(c) && Due(c, id, due) && Head(c) <= id < |c.records|
    ensures c.now <= due
  {
    assert c.queue != [] && RecordShape(c.records[c.queue[0]]);
  }
}
