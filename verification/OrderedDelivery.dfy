/** What becomes of the record itself: each receiver's delivery state follows the turns, and only a finish
    changes the result. */
module OrderedDelivery {
  import opened Wrappers
  import opened OrderedRecords
  import opened OrderedDispatch
  import opened OrderedProgress

  /** A receiver is PENDING until its turn has been acted on. */
  predicate DeliveryOf(r: Record, waiting: bool) {
    && RecordShape(r)
    && forall i :: 0 <= i < |r.receivers| ==>
         (r.deliveryState[i] == PENDING <==> i >= r.nextReceiver || (waiting && i + 1 == r.nextReceiver))
  }

  ghost predicate Delivered(s: State) {
    forall id :: 0 <= id < |s.core.records| ==>
      DeliveryOf(s.core.records[id], s.ordered.Notifying? && s.ordered.sp == id)
  }

  lemma DeliveredDrainAt(c: Core, id: nat)
    requires QueueShape(c) && id < |c.records| && DeliveryOf(c.records[id], false)
    ensures |DrainQueue(c).core.records| == |c.records| && DeliveryOf(DrainQueue(c).core.records[id], false)
  {
    DrainRecords(c, id);
  }

  lemma DeliveredDrain(s: State)
    requires Invariant(s) && Delivered(s) && s.ordered.Draining?
    ensures Delivered(Step(s, Ordered(Drain)))
  {
    DrainPops(s.core);
    forall id | 0 <= id < |s.core.records| ensures DeliveryOf(DrainQueue(s.core).core.records[id], false) {
      assert DeliveryOf(s.core.records[id], false);
      DeliveredDrainAt(s.core, id);
    }
  }

  lemma DeliveredMain(s: State, a: MainAction)
    requires Invariant(s) && Delivered(s) && MainEnabled(s.main, a)
    ensures Delivered(Step(s, Main(a)))
  {
    var c1 := MainStep(s.core, s.main, a).0;
    forall id | 0 <= id < |c1.records| ensures DeliveryOf(c1.records[id], s.ordered.Notifying? && s.ordered.sp == id) {
      if id < |s.core.records| {
        assert DeliveryOf(s.core.records[id], s.ordered.Notifying? && s.ordered.sp == id);
      }
    }
  }

  lemma DeliveredOrdered(s: State, a: OrderedAction)
    requires Invariant(s) && Delivered(s) && OrderedEnabled(s.core, s.ordered, a) && !a.Drain?
    ensures Delivered(Step(s, Ordered(a)))
  {
    var (c1, pc1) := OrderedStep(s.core, s.ordered, a);
    forall id | 0 <= id < |c1.records| ensures DeliveryOf(c1.records[id], pc1.Notifying? && pc1.sp == id) {
      assert DeliveryOf(s.core.records[id], s.ordered.Notifying? && s.ordered.sp == id);
      DeliveredAt(s, a, id);
    }
  }

  lemma DeliveredAt(s: State, a: OrderedAction, id: nat)
    requires Invariant(s) && OrderedEnabled(s.core, s.ordered, a) && !a.Drain? && id < |s.core.records|
    requires DeliveryOf(s.core.records[id], s.ordered.Notifying? && s.ordered.sp == id)
    ensures var (c1, pc1) := OrderedStep(s.core, s.ordered, a);
      && |c1.records| == |s.core.records|
      && DeliveryOf(c1.records[id], pc1.Notifying? && pc1.sp == id)
  {
    match a
    case Notify(outcome) => DeliveredNotify(s, outcome, id);
    case Prepare => DeliveredPrepare(s, id);
    case Expire => DeliveredExpire(s, id);
    case _ => SameDelivery(s, a, id);
  }

  lemma SameDelivery(s: State, a: OrderedAction, id: nat)
    requires OrderedEnabled(s.core, s.ordered, a) && id < |s.core.records|
    requires !a.Drain? && !a.Notify? && !a.Prepare? && !a.Expire?
    ensures var (c1, pc1) := OrderedStep(s.core, s.ordered, a);
      && |c1.records| == |s.core.records| && !pc1.Notifying? && !s.ordered.Notifying?
      && var r, r1 := s.core.records[id], c1.records[id];
         r1.receivers == r.receivers && r1.deliveryState == r.deliveryState && r1.nextReceiver == r.nextReceiver
  {
  }

  /** The receiver whose turn has come is still pending. */
  lemma DeliveredPrepare(s: State, id: nat)
    requires Invariant(s) && s.ordered.Preparing? && id < |s.core.records| && DeliveryOf(s.core.records[id], false)
    ensures var c1 := PrepareFront(s.core, s.ordered.sp);
      |c1.records| == |s.core.records| && DeliveryOf(c1.records[id], s.ordered.sp == id)
  {
    assert s.core.records[s.ordered.sp] == At(s.core.records, s.ordered.sp);
  }

  lemma DeliveredExpire(s: State, id: nat)
    requires Invariant(s) && s.ordered.Expiring? && id < |s.core.records| && DeliveryOf(s.core.records[id], false)
    ensures var c1 := TimeOutFront(s.core, s.ordered.sp, s.ordered.at);
      |c1.records| == |s.core.records| && DeliveryOf(c1.records[id], false)
  {
    assert s.core.records[s.ordered.sp] == At(s.core.records, s.ordered.sp);
  }

  lemma DeliveredNotify(s: State, outcome: Outcome, id: nat)
    requires Invariant(s) && s.ordered.Notifying? && id < |s.core.records|
    requires DeliveryOf(s.core.records[id], s.ordered.sp == id)
    ensures var c1 := NotifyReceiver(s.core, s.ordered.sp, s.ordered.index, outcome);
      |c1.records| == |s.core.records| && DeliveryOf(c1.records[id], false)
  {
    assert s.core.records[s.ordered.sp] == At(s.core.records, s.ordered.sp);
  }

  lemma DeliveredStep(s: State, a: Action)
    requires Invariant(s) && Delivered(s) && Enabled(s, a)
    ensures Delivered(Step(s, a))
  {
    match a
    case Tick(_) =>
    case Main(m) => DeliveredMain(s, m);
    case Ordered(o) => if o.Drain? { DeliveredDrain(s); } else { DeliveredOrdered(s, o); }
  }

  lemma {:induction false} RunDelivered(states: seq<State>, actions: seq<Action>, i: nat)
    requires Run(states, actions) && i < |states|
    ensures Delivered(states[i])
  {
    if i > 0 {
      RunDelivered(states, actions, i - 1);
      RunInvariant(states, actions, i - 1);
      assert Follows(states, actions, i - 1);
      DeliveredStep(states[i - 1], actions[i - 1]);
    }
  }

  /** At every task boundary the delivery states say exactly whose turn has come. */
  lemma PendingExactly(states: seq<State>, actions: seq<Action>, i: nat, id: nat, k: nat)
    requires Run(states, actions) && i < |states| && !states[i].ordered.Notifying?
    requires id < |states[i].core.records| && k < |states[i].core.records[id].receivers|
    ensures var r := states[i].core.records[id];
      && |r.deliveryState| == |r.receivers| && r.nextReceiver <= |r.receivers|
      && (r.deliveryState[k] == PENDING <==> r.nextReceiver <= k)
  {
    RunDelivered(states, actions, i);
    assert DeliveryOf(states[i].core.records[id], false);
  }

  // ---- Results

  predicate SameResult(r: Record, r1: Record) {
    r1.result == r.result && r1.resultAbort == r.resultAbort
  }

  /** The finish that an unsubscribe makes repeats the record's own result and abort flag. */
  predicate Repeats(s: State) {
    && (s.main.Matched? && s.main.call.unsubscribe ==>
          s.main.call.result == At(s.core.records, s.main.sp).result
          && s.main.call.abort == At(s.core.records, s.main.sp).resultAbort)
    && (s.main.Loaded? && s.main.call.unsubscribe ==>
          s.main.call.result == At(s.core.records, s.main.sp).result
          && s.main.call.abort == At(s.core.records, s.main.sp).resultAbort)
  }

  /** The same queue, and every record with the receivers, result and abort flag it had. */
  ghost predicate SameResults(c: Core, c1: Core) {
    && |c1.records| == |c.records| && c1.queue == c.queue
    && forall id :: 0 <= id < |c.records| ==>
         SameResult(c.records[id], c1.records[id]) && c1.records[id].receivers == c.records[id].receivers
  }

  lemma KeepsPut(c: Core, sp: nat, r: Record)
    requires SameResult(At(c.records, sp), r) && r.receivers == At(c.records, sp).receivers
    ensures SameResults(c, c.(records := Put(c.records, sp, r)))
  {
  }

  lemma KeepsFinal(c: Core, sp: nat, proxy: bool)
    ensures SameResults(c, NotifyFinalSubscriber(c, sp, proxy))
  {
    KeepsPut(c, sp, At(c.records, sp).(resultTo := None));
  }

  lemma KeepsPrepare(c: Core, sp: nat)
    ensures SameResults(c, PrepareFront(c, sp))
  {
    KeepsPut(c, sp, PrepareNextReceiver(At(c.records, sp), c.now));
  }

  lemma KeepsNotify(c: Core, sp: nat, index: nat, outcome: Outcome)
    ensures SameResults(c, NotifyReceiver(c, sp, index, outcome))
  {
    var r := At(c.records, sp);
    if index < |r.receivers| {
      KeepsPut(c, sp, if outcome.Frozen? then NotifyFrozen(r, index) else PrepareNotify(r, index, outcome.Call?));
    }
  }

  /** No ordered step but the sweep changes the queue, and none changes receivers, a result or an abort flag. */
  lemma OrderedKeeps(s: State, a: OrderedAction)
    requires OrderedEnabled(s.core, s.ordered, a) && !a.Drain?
    ensures SameResults(s.core, OrderedStep(s.core, s.ordered, a).0)
  {
    var c, pc := s.core, s.ordered;
    match a
    case NotifyFinal(proxy) => if pc.removed != [] { KeepsFinal(c, pc.removed[0], proxy); }
    case Prepare => KeepsPrepare(c, pc.sp);
    case Notify(outcome) => KeepsNotify(c, pc.sp, pc.index, outcome);
    case Result(ok) => KeepsPut(c, pc.sp, HandleResult(At(c.records, pc.sp), ok));
    case Expire => KeepsPut(c, pc.sp, HandleTimeout(At(c.records, pc.sp), pc.at));
    case Check => KeepsPut(c, pc.sp, At(c.records, pc.sp).(state := IDLE));
    case _ =>
  }

  lemma OrderedKeepsResults(s: State, a: OrderedAction, id: nat)
    requires Invariant(s) && OrderedEnabled(s.core, s.ordered, a) && id < |s.core.records|
    ensures |OrderedStep(s.core, s.ordered, a).0.records| == |s.core.records|
    ensures SameResult(s.core.records[id], OrderedStep(s.core, s.ordered, a).0.records[id])
  {
    if a.Drain? {
      DrainPops(s.core);
      DrainRecords(s.core, id);
    } else {
      OrderedKeeps(s, a);
    }
  }

  lemma RepeatsMain(s: State, a: MainAction)
    requires Invariant(s) && Repeats(s) && MainEnabled(s.main, a)
    ensures Repeats(Step(s, Main(a)))
  {
  }

  lemma RepeatsOrdered(s: State, a: OrderedAction)
    requires Invariant(s) && Repeats(s) && OrderedEnabled(s.core, s.ordered, a)
    ensures Repeats(Step(s, Ordered(a)))
  {
    if s.main.Matched? || s.main.Loaded? {
      OrderedKeepsResults(s, a, s.main.sp);
    }
  }

  lemma RepeatsStep(s: State, a: Action)
    requires Invariant(s) && Repeats(s) && Enabled(s, a)
    ensures Repeats(Step(s, a))
  {
    match a
    case Tick(_) =>
    case Main(m) => RepeatsMain(s, m);
    case Ordered(o) => RepeatsOrdered(s, o);
  }

  lemma {:induction false} RunRepeats(states: seq<State>, actions: seq<Action>, i: nat)
    requires Run(states, actions) && i < |states|
    ensures Repeats(states[i])
  {
    if i > 0 {
      RunRepeats(states, actions, i - 1);
      RunInvariant(states, actions, i - 1);
      assert Follows(states, actions, i - 1);
      RepeatsStep(states[i - 1], actions[i - 1]);
    }
  }

  /** Skipping, timing out, forcing and unsubscribing leave the result and the abort flag of every record as
      they were; only the update of a finish call changes them, and only those of the record it matched. */
  lemma OnlyFinishChangesResult(states: seq<State>, actions: seq<Action>, i: nat, id: nat)
    requires Run(states, actions) && i < |actions| && id < |states[i].core.records|
    requires actions[i] == Main(UpdateRecord) && states[i].main.Loaded? ==>
               states[i].main.call.unsubscribe || states[i].main.sp != id
    ensures id < |states[i + 1].core.records|
    ensures SameResult(states[i].core.records[id], states[i + 1].core.records[id])
  {
    RunRepeats(states, actions, i);
    RunInvariant(states, actions, i);
    assert Follows(states, actions, i);
    if actions[i].Ordered? {
      OrderedKeepsResults(states[i], actions[i].ordered, id);
    }
  }
}
