/** When the queue is woken up at once. FinishReceiver reads the record's state before it takes the
    record's lock; these results say exactly what that costs. */
module OrderedWakeUp {
  import opened Wrappers
  import opened OrderedRecords
  import opened OrderedDispatch
  import opened OrderedProgress

  /** A record that waits for nobody will be looked at again without waiting for the timer. */
  predicate Prompt(s: State) {
    s.core.queue != [] && At(s.core.records, s.core.queue[0]).state == IDLE ==> WakeUp(s)
  }

  /** The record was handed to its receiver between FinishReceiver's read of the state and its locked
      update, and nobody else is about to look at the queue. */
  predicate StaleRead(s: State) {
    && s.main.Loaded?
    && IsFront(s.core, s.main.sp)
    && s.main.state != RECEIVED
    && At(s.core.records, s.main.sp).state == RECEIVED
    && s.core.readyTrue + s.core.readyFalse == 0
    && (s.ordered.Idle? || (s.ordered.Finalizing? && s.ordered.next.None?))
  }

  lemma PromptMain(s: State, a: MainAction)
    requires Invariant(s) && Prompt(s) && MainEnabled(s.main, a) && a != UpdateRecord
    ensures Prompt(Step(s, Main(a)))
  {
  }

  lemma PromptOrdered(s: State, a: OrderedAction)
    requires Invariant(s) && Prompt(s) && OrderedEnabled(s.core, s.ordered, a) && !a.Drain?
    ensures Prompt(Step(s, Ordered(a)))
  {
  }

  lemma PromptDrain(s: State)
    requires Invariant(s) && s.ordered.Draining?
    ensures Prompt(Step(s, Ordered(Drain)))
  {
    DrainStops(s.core);
  }

  lemma PromptUpdate(s: State)
    requires Invariant(s) && Prompt(s) && s.main.Loaded?
    ensures Prompt(Step(s, Main(UpdateRecord))) <==> !StaleRead(s)
  {
  }

  lemma PromptStep(s: State, a: Action)
    requires Invariant(s) && Prompt(s) && Enabled(s, a) && (a == Main(UpdateRecord) ==> !StaleRead(s))
    ensures Prompt(Step(s, a))
  {
    match a
    case Tick(_) =>
    case Main(m) => if m.UpdateRecord? { PromptUpdate(s); } else { PromptMain(s, m); }
    case Ordered(o) => if o.Drain? { PromptDrain(s); } else { PromptOrdered(s, o); }
  }

  /** A run wakes its queue up at once in every state exactly when it contains no update after a stale
      read. */
  lemma PromptExactly(states: seq<State>, actions: seq<Action>)
    requires Run(states, actions)
    ensures (forall i :: 0 <= i < |states| ==> Prompt(states[i])) <==>
            (forall i :: 0 <= i < |actions| && actions[i] == Main(UpdateRecord) ==> !StaleRead(states[i]))
  {
    if forall i :: 0 <= i < |states| ==> Prompt(states[i]) {
      forall i | 0 <= i < |actions| && actions[i] == Main(UpdateRecord) ensures !StaleRead(states[i]) {
        RunInvariant(states, actions, i);
        assert Follows(states, actions, i);
        assert Prompt(states[i]) && Prompt(states[i + 1]);
        PromptUpdate(states[i]);
      }
    }
    if forall i :: 0 <= i < |actions| && actions[i] == Main(UpdateRecord) ==> !StaleRead(states[i]) {
      forall i | 0 <= i < |states| ensures Prompt(states[i]) {
        PromptUpTo(states, actions, i);
      }
    }
  }

  lemma {:induction false} PromptUpTo(states: seq<State>, actions: seq<Action>, i: nat)
    requires Run(states, actions) && i < |states|
    requires forall k :: 0 <= k < |actions| && actions[k] == Main(UpdateRecord) ==> !StaleRead(states[k])
    ensures Prompt(states[i])
  {
    if i > 0 {
      PromptUpTo(states, actions, i - 1);
      RunInvariant(states, actions, i - 1);
      assert Follows(states, actions, i - 1);
      PromptStep(states[i - 1], actions[i - 1]);
    }
  }

  /** Even then the queue is not lost: in every reachable state a queue with work in it is about to be
      looked at, or its timer is running. */
  lemma NeverStuck(states: seq<State>, actions: seq<Action>, i: nat)
    requires Run(states, actions) && i < |states| && states[i].core.queue != []
    ensures WakeUp(states[i]) || (states[i].core.pendingTimeout && states[i].core.timer.Some?)
    ensures At(states[i].core.records, states[i].core.queue[0]).nextReceiver == 0 ==> WakeUp(states[i])
  {
    RunInvariant(states, actions, i);
  }

  lemma Extend(states: seq<State>, actions: seq<Action>, a: Action) returns (longer: seq<State>, more: seq<Action>)
    requires Run(states, actions) && Enabled(states[|states| - 1], a)
    ensures Run(longer, more) && more == actions + [a]
    ensures longer == states + [Step(states[|states| - 1], a)]
  {
    longer, more := states + [Step(states[|states| - 1], a)], actions + [a];
    forall i | 0 <= i < |more| ensures Follows(longer, more, i) {
      if i < |actions| { assert Follows(states, actions, i); }
    }
  }

  /** One event for the two listeners 7 and 8, of which the first is in its turn. */
  predicate FirstTurn(s: State) {
    && s.main == Ready
    && s.core.queue == [0] && |s.core.records| == 1
    && s.core.readyTrue == 0 && s.core.readyFalse == 0 && !s.core.scheduled
    && s.core.records[0].state == RECEIVING && s.core.records[0].curReceiver == Some(7)
    && s.core.records[0].receivers == [Receiver(7, 0), Receiver(8, 0)] && s.core.records[0].nextReceiver == 1
    && !s.core.records[0].resultAbort && s.core.records[0].dispatchTime == s.core.records[0].receiverTime == 1
    && s.core.timer == Some(1 + TIMEOUT) && s.core.now == 1 && s.core.pendingTimeout
  }

  /** The event published and its task queued. */
  lemma FirstPublish(receivers: seq<Receiver>) returns (states: seq<State>, actions: seq<Action>)
    requires receivers == [Receiver(7, 0), Receiver(8, 0)]
    ensures Run(states, actions)
    ensures forall i :: 0 <= i < |actions| ==> actions[i] != Main(UpdateRecord)
    ensures var s := states[|states| - 1];
      && s.main == Ready && s.ordered == Idle && s.core.queue == [0]
      && s.core.records == [NewRecord(receivers, None, Payload(0, ""))]
      && !s.core.pendingTimeout && s.core.readyTrue == 1 && s.core.readyFalse == 0 && s.core.now == 1
  {
    states, actions := [Init(1)], [];
    states, actions := Extend(states, actions, Main(Publish(receivers, None, Payload(0, ""))));
    states, actions := Extend(states, actions, Main(MainSchedule));
    states, actions := Extend(states, actions, Main(MainSchedule));
    states, actions := Extend(states, actions, Main(MainSchedule));
  }

  /** And taken to the point where listener 7 is about to be called. */
  lemma FirstStore() returns (states: seq<State>, actions: seq<Action>)
    ensures Run(states, actions)
    ensures FirstTurn(states[|states| - 1]) && states[|states| - 1].ordered == Calling(0, 0)
    ensures forall i :: 0 <= i < |actions| ==> actions[i] != Main(UpdateRecord)
  {
    var receivers := [Receiver(7, 0), Receiver(8, 0)];
    states, actions := FirstPublish(receivers);
    states, actions := Extend(states, actions, Ordered(RunNext(true)));
    states, actions := FirstDrain(states, actions, receivers);
  }

  lemma FirstDrain(states0: seq<State>, actions0: seq<Action>, receivers: seq<Receiver>)
      returns (states: seq<State>, actions: seq<Action>)
    requires Run(states0, actions0) && receivers == [Receiver(7, 0), Receiver(8, 0)]
    requires forall i :: 0 <= i < |actions0| ==> actions0[i] != Main(UpdateRecord)
    requires var s := states0[|states0| - 1];
      && s.main == Ready && s.ordered == Draining && s.core.queue == [0]
      && s.core.records == [NewRecord(receivers, None, Payload(0, ""))]
      && !s.core.pendingTimeout && !s.core.scheduled
      && s.core.readyTrue == 0 && s.core.readyFalse == 0 && s.core.now == 1
    ensures Run(states, actions)
    ensures FirstTurn(states[|states| - 1]) && states[|states| - 1].ordered == Calling(0, 0)
    ensures forall i :: 0 <= i < |actions| ==> actions[i] != Main(UpdateRecord)
  {
    states, actions := Extend(states0, actions0, Ordered(Drain));
    states, actions := Extend(states, actions, Ordered(NotifyFinal(true)));
    states, actions := Extend(states, actions, Ordered(Prepare));
    states, actions := Extend(states, actions, Ordered(Notify(Call)));
  }

  /** And to the point where it has been called. */
  lemma FirstCall() returns (states: seq<State>, actions: seq<Action>)
    ensures Run(states, actions)
    ensures FirstTurn(states[|states| - 1]) && states[|states| - 1].ordered == Awaiting(0, 0)
  {
    states, actions := FirstStore();
    states, actions := Extend(states, actions, Ordered(Invoke));
  }

  /** A receiver that finishes while its own notification call is still returning: the state was read as
      RECEIVING, the call's result then stored RECEIVED, and the update left the record IDLE with nobody
      to look at it until the timer. */
  lemma StaleReadHappens() returns (states: seq<State>, actions: seq<Action>)
    ensures Run(states, actions)
    ensures !Prompt(states[|states| - 1])
  {
    states, actions := FirstCall();
    states, actions := Extend(states, actions, Main(MatchFinish(FinishCall(7, Payload(1, ""), false, false))));
    states, actions := Extend(states, actions, Main(LoadState));
    states, actions := Extend(states, actions, Ordered(Result(true)));
    states, actions := Extend(states, actions, Ordered(Check));
    states, actions := Extend(states, actions, Main(UpdateRecord));
  }
}
