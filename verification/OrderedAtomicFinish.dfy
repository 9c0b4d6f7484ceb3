/** What the dispatcher would promise if a finish matched, read and updated its record in one step: no wake-up is
    ever left to the timer, a finish is always the caller's, and an abort fails in one window only. */
module OrderedAtomicFinish {
  import opened Wrappers
  import opened OrderedRecords
  import opened OrderedDispatch
  import opened OrderedProgress
  import opened OrderedWakeUp
  import opened OrderedAborts

  /** Every update comes right after its match and its read of the state. */
  ghost predicate AtomicFinishes(actions: seq<Action>) {
    forall i :: 0 <= i < |actions| && actions[i] == Main(UpdateRecord) ==>
      i >= 2 && actions[i - 1] == Main(LoadState) && actions[i - 2].Main? && actions[i - 2].main.MatchFinish?
  }

  /** What an update then knows: its record is the front one, still waits for the caller, and is in the state that
      was read. */
  predicate UpToDate(s: State) {
    && s.main.Loaded?
    && IsFront(s.core, s.main.sp)
    && At(s.core.records, s.main.sp).curReceiver == Some(s.main.call.proxy)
    && s.main.state == At(s.core.records, s.main.sp).state
    && (s.main.call.unsubscribe ==> s.main.call.abort == At(s.core.records, s.main.sp).resultAbort)
  }

  lemma MatchThenLoad(s: State, call: FinishCall)
    requires Enabled(s, Main(MatchFinish(call))) && Enabled(Step(s, Main(MatchFinish(call))), Main(LoadState))
    ensures UpToDate(Step(Step(s, Main(MatchFinish(call))), Main(LoadState)))
  {
  }

  lemma UpdateIsUpToDate(states: seq<State>, actions: seq<Action>, i: nat)
    requires Run(states, actions) && AtomicFinishes(actions) && i < |actions| && actions[i] == Main(UpdateRecord)
    ensures UpToDate(states[i])
  {
    assert actions[i - 1] == Main(LoadState) && actions[i - 2].main.MatchFinish?;
    var s := states[i - 2];
    assert Follows(states, actions, i - 2);
    assert Follows(states, actions, i - 1);
    MatchThenLoad(s, actions[i - 2].main.call);
  }

  /** No lost wake-up: in every state of such a run a queue whose front record is IDLE is about to be looked at. */
  lemma AtomicIsPrompt(states: seq<State>, actions: seq<Action>, i: nat)
    requires Run(states, actions) && AtomicFinishes(actions) && i < |states|
    ensures Prompt(states[i])
  {
    forall k | 0 <= k < |actions| && actions[k] == Main(UpdateRecord) ensures !StaleRead(states[k]) {
      UpdateIsUpToDate(states, actions, k);
    }
    PromptExactly(states, actions);
  }

  /** The record's next receiver has been chosen, and whom the record waits for has not been stored yet. */
  predicate Chosen(pc: OrderedPc, id: nat) {
    Underway(pc, id) && !pc.Calling?
  }

  /** An aborted record waits for nobody and is not chosen again. */
  ghost predicate Resting(s: State) {
    s.core.queue != [] && At(s.core.records, s.core.queue[0]).resultAbort ==>
      At(s.core.records, s.core.queue[0]).curReceiver == None && !Chosen(s.ordered, s.core.queue[0])
  }

  /** The finish aborts its record after the record has stored that it waits for the caller and before the caller
      is called. */
  predicate BeforeItsCall(s: State, id: nat) {
    s.main.Loaded? && s.main.call.abort && s.main.sp == id && s.ordered.Calling? && s.ordered.sp == id
  }

  lemma UpToDateOvertakes(s: State, id: nat)
    requires Invariant(s) && Resting(s) && UpToDate(s)
    ensures OvertakingFinish(s, Main(UpdateRecord), id) <==> BeforeItsCall(s, id)
  {
    assert FlowAt(s.core, s.ordered, s.main.sp);
  }

  lemma RestingMain(s: State, a: MainAction)
    requires Invariant(s) && Resting(s) && MainEnabled(s.main, a) && (a.UpdateRecord? ==> UpToDate(s))
    ensures Resting(Step(s, Main(a)))
  {
    if a.UpdateRecord? {
      assert FlowAt(s.core, s.ordered, s.main.sp);
    }
  }

  /** A receiver is called only for a record that is not aborted when it is chosen. */
  lemma RestingNotify(s: State, outcome: Outcome)
    requires Invariant(s) && Resting(s) && s.ordered.Notifying?
    ensures Resting(Step(s, Ordered(Notify(outcome))))
  {
    assert Chosen(s.ordered, s.ordered.sp);
    assert s.core.records[s.ordered.sp] == At(s.core.records, s.ordered.sp);
  }

  lemma RestingDrain(s: State)
    requires Invariant(s) && Resting(s) && s.ordered.Draining?
    ensures Resting(Step(s, Ordered(Drain)))
  {
    var d := DrainQueue(s.core);
    DrainFront(s);
    DrainPops(s.core);
    DrainStops(s.core);
    if d.core.queue != [] {
      assert FlowAt(s.core, s.ordered, d.core.queue[0]);
    }
  }

  lemma RestingTurn(s: State, a: OrderedAction)
    requires Invariant(s) && Resting(s) && OrderedEnabled(s.core, s.ordered, a)
    requires a.Prepare? || a.Invoke? || a.Result? || a.Check?
    ensures Resting(Step(s, Ordered(a)))
  {
  }

  lemma RestingTask(s: State, a: OrderedAction)
    requires Invariant(s) && Resting(s) && OrderedEnabled(s.core, s.ordered, a)
    requires a.RunNext? || a.RunTimer? || a.Expire? || a.NotifyFinal? || a.OrderedSchedule?
    ensures Resting(Step(s, Ordered(a)))
  {
  }

  lemma RestingStep(s: State, a: Action)
    requires Invariant(s) && Resting(s) && Enabled(s, a) && (a == Main(UpdateRecord) ==> UpToDate(s))
    ensures Resting(Step(s, a))
  {
    match a
    case Tick(_) =>
    case Main(m) => RestingMain(s, m);
    case Ordered(o) =>
      match o
      case Drain => RestingDrain(s);
      case Notify(outcome) => RestingNotify(s, outcome);
      case Prepare => RestingTurn(s, o);
      case Invoke => RestingTurn(s, o);
      case Result(_) => RestingTurn(s, o);
      case Check => RestingTurn(s, o);
      case _ => RestingTask(s, o);
  }

  lemma {:induction false} RunResting(states: seq<State>, actions: seq<Action>, i: nat)
    requires Run(states, actions) && AtomicFinishes(actions) && i < |states|
    ensures Resting(states[i])
  {
    if i > 0 {
      RunResting(states, actions, i - 1);
      RunInvariant(states, actions, i - 1);
      assert Follows(states, actions, i - 1);
      if actions[i - 1] == Main(UpdateRecord) {
        UpdateIsUpToDate(states, actions, i - 1);
      }
      RestingStep(states[i - 1], actions[i - 1]);
    }
  }

  lemma AtomicOvertakes(states: seq<State>, actions: seq<Action>, i: nat, id: nat)
    requires Run(states, actions) && AtomicFinishes(actions) && i < |actions| && actions[i] == Main(UpdateRecord)
    ensures OvertakingFinish(states[i], actions[i], id) <==> BeforeItsCall(states[i], id)
  {
    RunResting(states, actions, i);
    RunInvariant(states, actions, i);
    UpdateIsUpToDate(states, actions, i);
    UpToDateOvertakes(states[i], id);
  }

  /** With atomic finishes every abort holds throughout a run exactly when no finish aborts its record between the
      moment the record waits for the caller and the moment the caller is called. */
  lemma AtomicAbortsExactly(states: seq<State>, actions: seq<Action>)
    requires Run(states, actions) && AtomicFinishes(actions)
    ensures (forall i :: 0 <= i < |states| ==> AbortHolds(states[i])) <==>
            (forall i, id :: 0 <= i < |actions| && actions[i] == Main(UpdateRecord) ==> !BeforeItsCall(states[i], id))
  {
    AbortExactly(states, actions);
    forall i | 0 <= i < |actions| && actions[i] == Main(UpdateRecord)
      ensures Overtakes(states[i]) <==> exists id :: BeforeItsCall(states[i], id)
    {
      UpdateIsUpToDate(states, actions, i);
      var sp := states[i].main.sp;
      AtomicOvertakes(states, actions, i, sp);
      assert Overtakes(states[i]) <==> BeforeItsCall(states[i], sp);
    }
  }

  /** And a receiver of an aborted record is called exactly if such a finish is followed by the call it preceded. */
  lemma AtomicCallExactly(states: seq<State>, actions: seq<Action>, id: nat)
    requires Run(states, actions) && AtomicFinishes(actions)
    ensures CalledAfterAbort(states[|actions|].core.history, id) <==>
            exists i, n :: 0 <= i < n < |actions| && actions[i] == Main(UpdateRecord) && BeforeItsCall(states[i], id)
                             && Calls(states[n], actions[n], id)
  {
    CallAfterAbortExactly(states, actions, id);
    forall i | 0 <= i < |actions| && actions[i] == Main(UpdateRecord)
      ensures OvertakingFinish(states[i], actions[i], id) <==> BeforeItsCall(states[i], id)
    {
      AtomicOvertakes(states, actions, i, id);
    }
  }

  /** Even an atomic finish can come too early: a stale finish of listener 7 matches the record that is about to call
      it, aborts that record, and listener 7 is called all the same. */
  lemma AtomicAbortOvertaken() returns (states: seq<State>, actions: seq<Action>)
    ensures Run(states, actions) && AtomicFinishes(actions)
    ensures CalledAfterAbort(states[|states| - 1].core.history, 0)
  {
    states, actions := StaleMatch();
    states, actions := Extend(states, actions, Main(UpdateRecord));
    states, actions := Extend(states, actions, Ordered(Invoke));
    var h := states[|states| - 1].core.history;
    assert IsAbort(h[|h| - 2], 0) && IsCall(h[|h| - 1], 0);
  }

  lemma StaleMatch() returns (states: seq<State>, actions: seq<Action>)
    ensures Run(states, actions)
    ensures var n, s := |actions|, states[|states| - 1];
      && n >= 2 && actions[n - 1] == Main(LoadState) && actions[n - 2].Main? && actions[n - 2].main.MatchFinish?
      && (forall i :: 0 <= i < n ==> actions[i] != Main(UpdateRecord))
      && s.ordered == Calling(0, 0) && |s.core.records| == 1 && |s.core.records[0].receivers| == 2
      && s.main.Loaded? && s.main.sp == 0 && s.main.call.abort
  {
    states, actions := FirstStore();
    states, actions := Extend(states, actions, Main(MatchFinish(FinishCall(7, Payload(1, ""), true, false))));
    states, actions := Extend(states, actions, Main(LoadState));
  }

  /** Every accepted finish ends the turn of the receiver it came from, never another one's. */
  lemma AtomicFinishIsTheCallers(states: seq<State>, actions: seq<Action>, i: nat)
    requires Run(states, actions) && AtomicFinishes(actions) && i < |actions| && actions[i] == Main(UpdateRecord)
    ensures states[i].main.Loaded?
    ensures var r := At(states[i].core.records, states[i].main.sp);
            && IsFront(states[i].core, states[i].main.sp)
            && r.curReceiver == Some(states[i].main.call.proxy)
            && 0 < r.nextReceiver <= |r.receivers|
            && r.receivers[r.nextReceiver - 1].listener == states[i].main.call.proxy
  {
    UpdateIsUpToDate(states, actions, i);
    RunInvariant(states, actions, i);
    assert FlowAt(states[i].core, states[i].ordered, states[i].main.sp);
  }
}
