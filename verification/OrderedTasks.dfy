/** The dispatcher's whole tasks as functions of the shared state, for when the other queue does not run in between,
    and the proof that each is a run of the step system. */
module OrderedTasks {
  import opened Listeners
  import opened Wrappers
  import opened OrderedRecords
  import opened OrderedDispatch

  // ---- What each task does to the shared state when nothing runs in between

  function ScheduleNow(c: Core): Core {
    if c.scheduled then c else c.(scheduled := true, readyTrue := c.readyTrue + 1)
  }

  /** What the world outside answers: whether the receiver is frozen, whether its proxy is alive, whether the call
      succeeds, and whether the final subscriber of the k-th record removed is alive. */
  datatype World = World(frozen: bool, alive: bool, ok: bool, finalAlive: nat -> bool)

  function OutcomeOf(w: World): Outcome {
    if w.frozen then Frozen else if w.alive then Call else NoProxy
  }

  /** The final subscribers of `removed`, of which the first is the `k`th record removed. */
  function TellFinals(c: Core, removed: seq<nat>, alive: nat -> bool, k: nat): Core
    decreases |removed|
  {
    if removed == [] then c else TellFinals(NotifyFinalSubscriber(c, removed[0], alive(k)), removed[1..], alive, k + 1)
  }

  function NotifyNow(c: Core, sp: nat, index: nat, w: World): Core {
    var c1 := NotifyReceiver(c, sp, index, OutcomeOf(w));
    if OutcomeOf(w).Call? && index < |At(c.records, sp).receivers| then
      ReceiverResult(CallReceiver(c1, sp, index), sp, w.ok)
    else c1
  }

  function CheckNow(c: Core, sp: nat): Core {
    var r := At(c.records, sp);
    if r.curReceiver.None? then ScheduleNow(c.(records := Put(c.records, sp, r.(state := IDLE)))) else c
  }

  function SweepNow(c: Core, finalAlive: nat -> bool): Core {
    TellFinals(DrainQueue(c).core, DrainQueue(c).removed, finalAlive, 0)
  }

  function TurnNow(c: Core, sp: nat, w: World): Core {
    CheckNow(NotifyNow(PrepareFront(c, sp), sp, At(c.records, sp).nextReceiver, w), sp)
  }

  function DrainedNow(c: Core, w: World): Core {
    match DrainQueue(c).next
    case None => SweepNow(c, w.finalAlive)
    case Some(sp) => TurnNow(SweepNow(c, w.finalAlive), sp, w)
  }

  function ProcessNextNow(c: Core, isSendMsg: bool, w: World): Core {
    DrainedNow(if isSendMsg then c.(scheduled := false) else c, w)
  }

  function TimeoutNow(c: Core): Core {
    var (c1, late) := Timeout(c);
    if late.Some? then ScheduleNow(TimeOutFront(c1, late.value, c.now)) else c1
  }

  function FinishNow(c: Core, call: FinishCall): Core {
    match MatchFront(c, call.proxy)
    case None => c
    case Some(sp) =>
      var c1 := FinishRecord(c, sp, Arguments(c, sp, call));
      if At(c.records, sp).state == RECEIVED then c1.(readyFalse := c1.readyFalse + 1) else c1
  }

  // ---- The tasks as runs of the step system

  /** Ordered steps only, taken one after the other from `c` and `pc`. */
  ghost predicate Alone(c: Core, pc: OrderedPc, actions: seq<OrderedAction>, c1: Core, pc1: OrderedPc)
    decreases |actions|
  {
    if actions == [] then c == c1 && pc == pc1
    else
      && OrderedEnabled(c, pc, actions[0])
      && var (c0, pc0) := OrderedStep(c, pc, actions[0]); Alone(c0, pc0, actions[1..], c1, pc1)
  }

  lemma RestOfConcat(a: seq<OrderedAction>, b: seq<OrderedAction>)
    requires a != []
    ensures a + b != [] && (a + b)[0] == a[0] && (a + b)[1..] == a[1..] + b
  {
  }

  lemma {:induction false} AloneThen(c: Core, pc: OrderedPc, a: seq<OrderedAction>, c1: Core, pc1: OrderedPc,
                                     b: seq<OrderedAction>, c2: Core, pc2: OrderedPc)
    requires Alone(c, pc, a, c1, pc1) && Alone(c1, pc1, b, c2, pc2)
    ensures Alone(c, pc, a + b, c2, pc2)
    decreases |a|
  {
    if a == [] {
      assert a + b == b;
    } else {
      var (c0, pc0) := OrderedStep(c, pc, a[0]);
      assert Alone(c0, pc0, a[1..], c1, pc1);
      AloneThen(c0, pc0, a[1..], c1, pc1, b, c2, pc2);
      RestOfConcat(a, b);
    }
  }

  lemma AloneSchedule(c: Core) returns (actions: seq<OrderedAction>)
    ensures Alone(c, OrderedScheduling(Look), actions, ScheduleNow(c), Idle)
  {
    var a := OrderedSchedule;
    if c.scheduled {
      actions := [a];
      assert Alone(c, Idle, [a][1..], c, Idle);
    } else {
      var c1 := c.(scheduled := true);
      actions := [a, a, a];
      assert [a, a, a][1..] == [a, a] && [a, a][1..] == [a];
      assert Alone(ScheduleNow(c), Idle, [a][1..], ScheduleNow(c), Idle);
      assert Alone(c1, OrderedScheduling(Submit), [a], ScheduleNow(c), Idle);
      assert Alone(c, OrderedScheduling(Flag), [a, a], ScheduleNow(c), Idle);
    }
  }

  lemma {:induction false} AloneFinals(c: Core, removed: seq<nat>, next: Option<nat>, alive: nat -> bool, k: nat)
      returns (actions: seq<OrderedAction>)
    ensures Alone(c, Finalizing(removed, next), actions, TellFinals(c, removed, alive, k),
                  if next.Some? then Preparing(next.value) else Idle)
    decreases |removed|
  {
    if removed == [] {
      actions := [NotifyFinal(true)];
      assert Alone(c, if next.Some? then Preparing(next.value) else Idle, actions[1..], c,
                   if next.Some? then Preparing(next.value) else Idle);
    } else {
      var rest := AloneFinals(NotifyFinalSubscriber(c, removed[0], alive(k)), removed[1..], next, alive, k + 1);
      actions := [NotifyFinal(alive(k))] + rest;
      assert actions[1..] == rest;
    }
  }

  lemma AloneOne(c: Core, pc: OrderedPc, a: OrderedAction)
    requires OrderedEnabled(c, pc, a)
    ensures Alone(c, pc, [a], OrderedStep(c, pc, a).0, OrderedStep(c, pc, a).1)
  {
    assert [a][1..] == [];
  }

  lemma AloneNotify(c: Core, sp: nat, index: nat, w: World) returns (actions: seq<OrderedAction>)
    ensures Alone(c, Notifying(sp, index), actions, NotifyNow(c, sp, index, w), Checking(sp))
  {
    var c1 := NotifyReceiver(c, sp, index, OutcomeOf(w));
    AloneOne(c, Notifying(sp, index), Notify(OutcomeOf(w)));
    actions := [Notify(OutcomeOf(w))];
    if OutcomeOf(w).Call? && index < |At(c.records, sp).receivers| {
      var c2 := CallReceiver(c1, sp, index);
      AloneOne(c1, Calling(sp, index), Invoke);
      AloneOne(c2, Awaiting(sp, index), Result(w.ok));
      AloneThen(c1, Calling(sp, index), [Invoke], c2, Awaiting(sp, index), [Result(w.ok)],
                ReceiverResult(c2, sp, w.ok), Checking(sp));
      AloneThen(c, Notifying(sp, index), actions, c1, Calling(sp, index), [Invoke] + [Result(w.ok)],
                ReceiverResult(c2, sp, w.ok), Checking(sp));
      actions := actions + ([Invoke] + [Result(w.ok)]);
    }
  }

  lemma AloneCheck(c: Core, sp: nat) returns (actions: seq<OrderedAction>)
    ensures Alone(c, Checking(sp), actions, CheckNow(c, sp), Idle)
  {
    var (c1, pc1) := OrderedStep(c, Checking(sp), Check);
    AloneOne(c, Checking(sp), Check);
    actions := [Check];
    if At(c.records, sp).curReceiver.None? {
      var more := AloneSchedule(c1);
      AloneThen(c, Checking(sp), actions, c1, pc1, more, ScheduleNow(c1), Idle);
      actions := actions + more;
    }
  }

  lemma AloneTurn(c: Core, sp: nat, w: World) returns (actions: seq<OrderedAction>)
    ensures Alone(c, Preparing(sp), actions, TurnNow(c, sp, w), Idle)
  {
    var index := At(c.records, sp).nextReceiver;
    var c1 := PrepareFront(c, sp);
    var c2 := NotifyNow(c1, sp, index, w);
    AloneOne(c, Preparing(sp), Prepare);
    var notify := AloneNotify(c1, sp, index, w);
    var check := AloneCheck(c2, sp);
    AloneThen(c1, Notifying(sp, index), notify, c2, Checking(sp), check, TurnNow(c, sp, w), Idle);
    AloneThen(c, Preparing(sp), [Prepare], c1, Notifying(sp, index), notify + check, TurnNow(c, sp, w), Idle);
    actions := [Prepare] + (notify + check);
  }

  lemma AloneSweep(c: Core, alive: nat -> bool) returns (actions: seq<OrderedAction>)
    ensures Alone(c, Draining, actions, SweepNow(c, alive),
                  if DrainQueue(c).next.Some? then Preparing(DrainQueue(c).next.value) else Idle)
  {
    var d := DrainQueue(c);
    AloneOne(c, Draining, Drain);
    var finals := AloneFinals(d.core, d.removed, d.next, alive, 0);
    AloneThen(c, Draining, [Drain], d.core, Finalizing(d.removed, d.next), finals, SweepNow(c, alive),
              if d.next.Some? then Preparing(d.next.value) else Idle);
    actions := [Drain] + finals;
  }

  /** ProcessNextOrderedEvent is a run of the step system in which the main queue stays still. */
  lemma ProcessNextIsARun(c: Core, isSendMsg: bool, w: World) returns (actions: seq<OrderedAction>)
    requires if isSendMsg then c.readyTrue > 0 else c.readyFalse > 0
    ensures var c0 := if isSendMsg then c.(readyTrue := c.readyTrue - 1) else c.(readyFalse := c.readyFalse - 1);
      Alone(c, Idle, actions, ProcessNextNow(c0, isSendMsg, w), Idle)
  {
    var c0 := OrderedStep(c, Idle, RunNext(isSendMsg)).0;
    AloneOne(c, Idle, RunNext(isSendMsg));
    var rest := AloneDrain(c0, w);
    AloneThen(c, Idle, [RunNext(isSendMsg)], c0, Draining, rest, DrainedNow(c0, w), Idle);
    actions := [RunNext(isSendMsg)] + rest;
  }

  lemma AloneDrain(c: Core, w: World) returns (actions: seq<OrderedAction>)
    ensures Alone(c, Draining, actions, DrainedNow(c, w), Idle)
  {
    actions := AloneSweep(c, w.finalAlive);
    var c1, next := SweepNow(c, w.finalAlive), DrainQueue(c).next;
    if next.Some? {
      var turn := AloneTurn(c1, next.value, w);
      AloneThen(c, Draining, actions, c1, Preparing(next.value), turn, TurnNow(c1, next.value, w), Idle);
      actions := actions + turn;
    }
  }

  /** So is the timeout task. */
  lemma TimeoutIsARun(c: Core) returns (actions: seq<OrderedAction>)
    requires c.timer.Some? && c.timer.value <= c.now
    ensures Alone(c, Idle, actions, TimeoutNow(c), Idle)
  {
    var (c1, late) := Timeout(c);
    AloneOne(c, Idle, RunTimer);
    actions := [RunTimer];
    if late.Some? {
      var c2 := TimeOutFront(c1, late.value, c.now);
      AloneOne(c1, Expiring(late.value, c.now), Expire);
      var more := AloneSchedule(c2);
      AloneThen(c1, Expiring(late.value, c.now), [Expire], c2, OrderedScheduling(Look), more, ScheduleNow(c2), Idle);
      AloneThen(c, Idle, actions, c1, Expiring(late.value, c.now), [Expire] + more, ScheduleNow(c2), Idle);
      actions := actions + ([Expire] + more);
    }
  }

  /** Main steps only, taken one after the other from `c` and `pc`. */
  ghost predicate AloneMain(c: Core, pc: MainPc, actions: seq<MainAction>, c1: Core, pc1: MainPc)
    decreases |actions|
  {
    if actions == [] then c == c1 && pc == pc1
    else
      && MainEnabled(pc, actions[0])
      && var (c0, pc0) := MainStep(c, pc, actions[0]); AloneMain(c0, pc0, actions[1..], c1, pc1)
  }

  lemma AloneMainFirst(c: Core, pc: MainPc, a: MainAction, rest: seq<MainAction>, c1: Core, pc1: MainPc)
    requires MainEnabled(pc, a) && AloneMain(MainStep(c, pc, a).0, MainStep(c, pc, a).1, rest, c1, pc1)
    ensures AloneMain(c, pc, [a] + rest, c1, pc1)
  {
    assert ([a] + rest)[1..] == rest;
  }

  /** A finish is a run of the step system in which the ordered queue stays still. */
  lemma FinishIsARun(c: Core, call: FinishCall) returns (actions: seq<MainAction>)
    ensures AloneMain(c, Ready, actions, FinishNow(c, call), Ready)
  {
    actions := [];
    if MatchFront(c, call.proxy).Some? {
      var sp := MatchFront(c, call.proxy).value;
      var args := Arguments(c, sp, call);
      var state := At(c.records, sp).state;
      var c1 := FinishRecord(c, sp, args);
      if state == RECEIVED {
        AloneMainFirst(c1, Submitting, SubmitNext, [], FinishNow(c, call), Ready);
        actions := [SubmitNext] + [];
      }
      AloneMainFirst(c, Loaded(sp, state, args), UpdateRecord, actions, FinishNow(c, call), Ready);
      actions := [UpdateRecord] + actions;
      AloneMainFirst(c, Matched(sp, args), LoadState, actions, FinishNow(c, call), Ready);
      actions := [LoadState] + actions;
    }
    AloneMainFirst(c, Ready, MatchFinish(call), actions, FinishNow(c, call), Ready);
    actions := [MatchFinish(call)] + actions;
  }

  /** And so is a publication. */
  lemma PublishIsARun(c: Core, receivers: seq<Receiver>, resultTo: Option<Listener>, result: Payload)
    returns (actions: seq<MainAction>)
    requires ByPriority(receivers)
    ensures AloneMain(c, Ready, actions, ScheduleNow(Enqueue(c, NewRecord(receivers, resultTo, result))), Ready)
  {
    var c1 := Enqueue(c, NewRecord(receivers, resultTo, result));
    var c2 := ScheduleNow(c1);
    actions := [];
    if !c1.scheduled {
      var flagged := c1.(scheduled := true);
      AloneMainFirst(flagged, MainScheduling(Submit), MainSchedule, [], c2, Ready);
      AloneMainFirst(c1, MainScheduling(Flag), MainSchedule, [MainSchedule] + [], c2, Ready);
      actions := [MainSchedule] + ([MainSchedule] + []);
    }
    AloneMainFirst(c1, MainScheduling(Look), MainSchedule, actions, c2, Ready);
    actions := [MainSchedule] + actions;
    AloneMainFirst(c, Ready, Publish(receivers, resultTo, result), actions, c2, Ready);
    actions := [Publish(receivers, resultTo, result)] + actions;
  }
}
