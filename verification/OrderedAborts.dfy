/** Finishing with an abort. The service finds the receiver's record, reads its state and updates it in three
    separate steps, and calls a receiver after it has stored whom the record waits for; these results say what
    an abort can rely on. */
module OrderedAborts {
  import opened Listeners
  import opened Wrappers
  import opened OrderedRecords
  import opened OrderedDispatch
  import opened OrderedProgress
  import opened OrderedWakeUp
  import opened OrderedDelivery

  predicate IsAbort(e: Event, id: nat) {
    e.Finished? && e.abort && e.id == id
  }

  predicate IsCall(e: Event, id: nat) {
    e.Sent? && e.id == id
  }

  ghost predicate Aborted(h: seq<Event>, id: nat) {
    exists k :: 0 <= k < |h| && IsAbort(h[k], id)
  }

  /** A receiver of the record is called although a finish had aborted the record before. */
  ghost predicate CalledAfterAbort(h: seq<Event>, id: nat) {
    exists j, k :: 0 <= j < k < |h| && IsAbort(h[j], id) && IsCall(h[k], id)
  }

  /** ProcessNextOrderedEvent has chosen this record and has not called its next receiver yet. */
  predicate Underway(pc: OrderedPc, id: nat) {
    || (pc.Finalizing? && pc.next == Some(id))
    || (pc.Preparing? && pc.sp == id)
    || (pc.Notifying? && pc.sp == id)
    || (pc.Calling? && pc.sp == id)
  }

  /** A record is marked aborted only if some finish aborted it. */
  ghost predicate AbortLogged(c: Core) {
    forall id :: 0 <= id < |c.records| && c.records[id].resultAbort ==> Aborted(c.history, id)
  }

  /** Only published records have been finished. */
  ghost predicate FinishKnown(c: Core) {
    forall k :: 0 <= k < |c.history| && c.history[k].Finished? ==> c.history[k].id < |c.records|
  }

  ghost predicate AbortState(s: State) {
    Invariant(s) && AbortLogged(s.core) && FinishKnown(s.core)
  }

  /** If the record is queued and some finish has aborted it, it is marked so and no call of it is under way. */
  ghost predicate AbortHoldsFor(s: State, id: nat) {
    id < |s.core.records| && Head(s.core) <= id && Aborted(s.core.history, id) ==>
      s.core.records[id].resultAbort && !Underway(s.ordered, id)
  }

  ghost predicate AbortHolds(s: State) {
    forall id: nat :: id < |s.core.records| ==> AbortHoldsFor(s, id)
  }

  /** The finish arrives when the next receiver has already been chosen and not been called, or withdraws an
      earlier abort. */
  predicate Overtakes(s: State) {
    && s.main.Loaded?
    && IsFront(s.core, s.main.sp)
    && (if s.main.call.abort then Underway(s.ordered, s.main.sp) else At(s.core.records, s.main.sp).resultAbort)
  }

  /** The action is such a finish of this record. */
  predicate OvertakingFinish(s: State, a: Action, id: nat) {
    a == Main(UpdateRecord) && Overtakes(s) && s.main.sp == id
  }

  // ---- The history of one step

  lemma AbortedGrows(h: seq<Event>, e: Event, id: nat)
    ensures Aborted(h + [e], id) <==> Aborted(h, id) || IsAbort(e, id)
  {
    var h1 := h + [e];
    if Aborted(h, id) {
      var k :| 0 <= k < |h| && IsAbort(h[k], id);
      assert IsAbort(h1[k], id);
    } else if IsAbort(e, id) {
      assert IsAbort(h1[|h|], id);
    }
  }

  /** The event an ordered step logs, if any: no finish, and a call only when the receiver is called. */
  lemma OrderedLogs(c: Core, pc: OrderedPc, a: OrderedAction) returns (e: Event)
    requires OrderedEnabled(c, pc, a) && !a.Drain?
    ensures !e.Finished?
    ensures OrderedStep(c, pc, a).0.history == c.history || OrderedStep(c, pc, a).0.history == c.history + [e]
    ensures e.Sent? ==> a == Invoke && e.id == pc.sp
  {
    var h, h1 := c.history, OrderedStep(c, pc, a).0.history;
    e := FinalLost(0);
    if |h1| > |h| {
      e := h1[|h|];
    }
  }

  lemma {:induction false} DrainLogs(c: Core, k: nat)
    requires |c.history| <= k < |DrainQueue(c).core.history|
    ensures var e := DrainQueue(c).core.history[k]; e.Forced? || e.Removed?
    decreases |c.queue|
  {
    if c.queue != [] && RemovesFront(c) {
      DrainKeepsHistory(DropFront(c));
      if k >= |DropFront(c).history| {
        DrainLogs(DropFront(c), k);
      }
    }
  }

  lemma DrainAborts(c: Core, id: nat)
    ensures Aborted(DrainQueue(c).core.history, id) <==> Aborted(c.history, id)
  {
    var h, h1 := c.history, DrainQueue(c).core.history;
    DrainKeepsHistory(c);
    if Aborted(h1, id) {
      var k :| 0 <= k < |h1| && IsAbort(h1[k], id);
      if k >= |h| { DrainLogs(c, k); }
      assert IsAbort(h[k], id);
    }
    if Aborted(h, id) {
      var k :| 0 <= k < |h| && IsAbort(h[k], id);
      assert IsAbort(h1[k], id);
    }
  }

  lemma OrderedAborted(s: State, a: OrderedAction, id: nat)
    requires OrderedEnabled(s.core, s.ordered, a)
    ensures Aborted(OrderedStep(s.core, s.ordered, a).0.history, id) <==> Aborted(s.core.history, id)
  {
    if a.Drain? {
      DrainAborts(s.core, id);
    } else {
      var e := OrderedLogs(s.core, s.ordered, a);
      AbortedGrows(s.core.history, e, id);
    }
  }

  // ---- Every step keeps the bookkeeping

  lemma KnownMain(s: State, a: MainAction)
    requires AbortState(s) && MainEnabled(s.main, a)
    ensures FinishKnown(MainStep(s.core, s.main, a).0)
  {
  }

  lemma KnownOrdered(s: State, a: OrderedAction)
    requires AbortState(s) && OrderedEnabled(s.core, s.ordered, a)
    ensures FinishKnown(OrderedStep(s.core, s.ordered, a).0)
  {
    var h, c1 := s.core.history, OrderedStep(s.core, s.ordered, a).0;
    if a.Drain? {
      DrainKeepsHistory(s.core);
      DrainPops(s.core);
      forall k | 0 <= k < |c1.history| && c1.history[k].Finished? ensures c1.history[k].id < |c1.records| {
        if k >= |h| { DrainLogs(s.core, k); }
        assert h[k] == c1.history[k];
      }
    } else {
      var e := OrderedLogs(s.core, s.ordered, a);
      OrderedKeeps(s, a);
    }
  }

  lemma LoggedMain(s: State, a: MainAction, id: nat)
    requires AbortState(s) && MainEnabled(s.main, a)
    ensures var c1 := MainStep(s.core, s.main, a).0;
      id < |c1.records| && c1.records[id].resultAbort ==> Aborted(c1.history, id)
  {
    match a
    case Publish(receivers, resultTo, result) =>
      AbortedGrows(s.core.history, Enqueued(|s.core.records|, receivers, resultTo, result), id);
    case UpdateRecord => AbortedGrows(s.core.history, Finished(s.main.sp, s.main.call.result, s.main.call.abort), id);
    case _ =>
  }

  lemma LoggedOrdered(s: State, a: OrderedAction, id: nat)
    requires AbortState(s) && OrderedEnabled(s.core, s.ordered, a)
    ensures var c1 := OrderedStep(s.core, s.ordered, a).0;
      id < |c1.records| && c1.records[id].resultAbort ==> Aborted(c1.history, id)
  {
    OrderedAborted(s, a, id);
    if a.Drain? { DrainPops(s.core); } else { OrderedKeeps(s, a); }
    if id < |s.core.records| { OrderedKeepsResults(s, a, id); }
  }

  lemma AbortStateStep(s: State, a: Action)
    requires AbortState(s) && Enabled(s, a)
    ensures AbortState(Step(s, a))
  {
    InvariantStep(s, a);
    var c1 := Step(s, a).core;
    match a
    case Tick(_) =>
    case Main(m) =>
      KnownMain(s, m);
      forall id | 0 <= id < |c1.records| && c1.records[id].resultAbort ensures Aborted(c1.history, id) {
        LoggedMain(s, m, id);
      }
    case Ordered(o) =>
      KnownOrdered(s, o);
      forall id | 0 <= id < |c1.records| && c1.records[id].resultAbort ensures Aborted(c1.history, id) {
        LoggedOrdered(s, o, id);
      }
  }

  lemma {:induction false} RunAbortState(states: seq<State>, actions: seq<Action>, i: nat)
    requires Run(states, actions) && i < |states|
    ensures AbortState(states[i])
  {
    if i > 0 {
      RunAbortState(states, actions, i - 1);
      assert Follows(states, actions, i - 1);
      AbortStateStep(states[i - 1], actions[i - 1]);
    }
  }

  // ---- What one step does to an abort

  /** An update keeps the aborts that were asked for exactly when it does not overtake the dispatch. */
  lemma HoldsUpdate(s: State, id: nat)
    requires AbortState(s) && AbortHoldsFor(s, id) && s.main.Loaded?
    ensures AbortHoldsFor(Step(s, Main(UpdateRecord)), id) <==> !(Overtakes(s) && s.main.sp == id)
  {
    AbortedGrows(s.core.history, Finished(s.main.sp, s.main.call.result, s.main.call.abort), id);
    assert s.core.records[s.main.sp] == At(s.core.records, s.main.sp);
    assert s.main.sp == id && Head(s.core) <= id ==> IsFront(s.core, id);
  }

  lemma HoldsMain(s: State, a: MainAction, id: nat)
    requires AbortState(s) && AbortHoldsFor(s, id) && MainEnabled(s.main, a) && a != UpdateRecord
    ensures AbortHoldsFor(Step(s, Main(a)), id)
  {
    if a.Publish? {
      AbortedGrows(s.core.history, Enqueued(|s.core.records|, a.receivers, a.resultTo, a.result), id);
    }
  }

  lemma OrderedKeepsUnderway(s: State, a: OrderedAction, id: nat)
    requires OrderedEnabled(s.core, s.ordered, a) && !a.Drain?
    ensures Underway(OrderedStep(s.core, s.ordered, a).1, id) ==> Underway(s.ordered, id)
  {
  }

  lemma HoldsOrdered(s: State, a: OrderedAction, id: nat)
    requires AbortState(s) && AbortHoldsFor(s, id) && OrderedEnabled(s.core, s.ordered, a) && !a.Drain?
    ensures AbortHoldsFor(Step(s, Ordered(a)), id)
  {
    OrderedAborted(s, a, id);
    OrderedKeeps(s, a);
    OrderedKeepsUnderway(s, a, id);
  }

  /** A sweep goes on only with a record that is not aborted. */
  lemma HoldsDrain(s: State, id: nat)
    requires AbortState(s) && AbortHoldsFor(s, id) && s.ordered.Draining?
    ensures AbortHoldsFor(Step(s, Ordered(Drain)), id)
  {
    var c, d := s.core, DrainQueue(s.core);
    DrainPops(c);
    if id < |c.records| && Head(d.core) <= id && Aborted(d.core.history, id) {
      DrainAborts(c, id);
      SweepSparesAborted(c, id);
    }
  }

  lemma SweepSparesAborted(c: Core, id: nat)
    requires QueueShape(c) && id < |c.records| == |DrainQueue(c).core.records| && c.records[id].resultAbort
    ensures DrainQueue(c).core.records[id].resultAbort && DrainQueue(c).next != Some(id)
  {
    DrainStops(c);
    DrainRecords(c, id);
  }

  lemma HoldsStep(s: State, a: Action, id: nat)
    requires AbortState(s) && Enabled(s, a) && AbortHoldsFor(s, id)
    ensures AbortHoldsFor(Step(s, a), id) <==> !OvertakingFinish(s, a, id)
  {
    match a
    case Tick(_) =>
    case Main(m) => if m.UpdateRecord? { HoldsUpdate(s, id); } else { HoldsMain(s, m, id); }
    case Ordered(o) => if o.Drain? { HoldsDrain(s, id); } else { HoldsOrdered(s, o, id); }
  }

  // ---- Over whole runs

  /** Wherever an abort does not hold, some finish before overtook the dispatch. */
  lemma {:induction false} Overtaken(states: seq<State>, actions: seq<Action>, n: nat, id: nat) returns (i: nat)
    requires Run(states, actions) && n < |states| && !AbortHoldsFor(states[n], id)
    ensures i < n && OvertakingFinish(states[i], actions[i], id)
  {
    assert n > 0;
    i := n - 1;
    if AbortHoldsFor(states[i], id) {
      RunAbortState(states, actions, i);
      assert Follows(states, actions, i);
      HoldsStep(states[i], actions[i], id);
    } else {
      i := Overtaken(states, actions, i, id);
    }
  }

  /** Aborts hold throughout a run exactly when no update in it overtakes the dispatch. */
  lemma AbortExactly(states: seq<State>, actions: seq<Action>)
    requires Run(states, actions)
    ensures (forall i :: 0 <= i < |states| ==> AbortHolds(states[i])) <==>
            (forall i :: 0 <= i < |actions| && actions[i] == Main(UpdateRecord) ==> !Overtakes(states[i]))
  {
    if forall i :: 0 <= i < |states| ==> AbortHolds(states[i]) {
      forall i | 0 <= i < |actions| && actions[i] == Main(UpdateRecord) ensures !Overtakes(states[i]) {
        RunAbortState(states, actions, i);
        assert Follows(states, actions, i);
        var s, id := states[i], states[i].main.sp;
        assert AbortHolds(s) && AbortHolds(states[i + 1]);
        assert AbortHoldsFor(s, id) && AbortHoldsFor(states[i + 1], id);
        HoldsStep(s, actions[i], id);
      }
    }
    if forall i :: 0 <= i < |actions| && actions[i] == Main(UpdateRecord) ==> !Overtakes(states[i]) {
      forall i: nat, id: nat | i < |states| ensures AbortHoldsFor(states[i], id) {
        if !AbortHoldsFor(states[i], id) {
          var n := Overtaken(states, actions, i, id);
        }
      }
    }
  }

  /** A step only adds to the history. */
  lemma HistoryStep(s: State, a: Action)
    requires Enabled(s, a)
    ensures s.core.history <= Step(s, a).core.history
  {
    if a == Ordered(Drain) {
      DrainKeepsHistory(s.core);
    } else if a.Ordered? {
      var e := OrderedLogs(s.core, s.ordered, a.ordered);
    }
  }

  /** A call is what `Invoke` adds. */
  lemma CallLogged(s: State, a: Action, k: nat)
    requires Enabled(s, a) && |s.core.history| <= k < |Step(s, a).core.history| && Step(s, a).core.history[k].Sent?
    ensures k == |s.core.history| && a == Ordered(Invoke) && s.ordered.sp == Step(s, a).core.history[k].id
  {
    if a == Ordered(Drain) {
      DrainLogs(s.core, k);
    } else if a.Ordered? {
      var e := OrderedLogs(s.core, s.ordered, a.ordered);
    }
  }

  lemma {:induction false} HistoryGrows(states: seq<State>, actions: seq<Action>, i: nat, n: nat)
    requires Run(states, actions) && i <= n < |states|
    ensures states[i].core.history <= states[n].core.history
  {
    if i < n {
      HistoryGrows(states, actions, i, n - 1);
      assert Follows(states, actions, n - 1);
      HistoryStep(states[n - 1], actions[n - 1]);
    }
  }

  /** The step that made a call. */
  lemma {:induction false} CallStep(states: seq<State>, actions: seq<Action>, i: nat, k: nat) returns (n: nat)
    requires Run(states, actions) && i < |states| && k < |states[i].core.history| && states[i].core.history[k].Sent?
    ensures n < i && actions[n] == Ordered(Invoke) && states[n].ordered.Calling?
    ensures states[n].ordered.sp == states[i].core.history[k].id
    ensures k == |states[n].core.history|
  {
    assert i > 0;
    n := i - 1;
    assert Follows(states, actions, n);
    HistoryStep(states[n], actions[n]);
    if k < |states[n].core.history| {
      n := CallStep(states, actions, n, k);
    } else {
      CallLogged(states[n], actions[n], k);
    }
  }

  /** The action calls a receiver of this record. */
  predicate Calls(s: State, a: Action, id: nat) {
    a == Ordered(Invoke) && s.ordered.Calling? && s.ordered.sp == id
  }

  lemma CallAdds(s: State, id: nat)
    requires Invariant(s) && Calls(s, Ordered(Invoke), id)
    ensures var h1 := Step(s, Ordered(Invoke)).core.history;
      |h1| == |s.core.history| + 1 && h1[..|s.core.history|] == s.core.history && IsCall(h1[|s.core.history|], id)
  {
  }

  /** After an overtaking finish its record has been aborted, by that finish or by one before. */
  lemma OvertakenIsAborted(s: State, id: nat)
    requires AbortState(s) && OvertakingFinish(s, Main(UpdateRecord), id)
    ensures Aborted(Step(s, Main(UpdateRecord)).core.history, id)
  {
    AbortedGrows(s.core.history, Finished(s.main.sp, s.main.call.result, s.main.call.abort), id);
    assert s.core.records[s.main.sp] == At(s.core.records, s.main.sp);
  }

  /** What an observer sees: a receiver is called after a finish aborted its record exactly if a finish overtook
      the dispatch of that record and the record went on to call a receiver. */
  lemma CallAfterAbortExactly(states: seq<State>, actions: seq<Action>, id: nat)
    requires Run(states, actions)
    ensures CalledAfterAbort(states[|actions|].core.history, id) <==>
            exists i, n :: 0 <= i < n < |actions| && OvertakingFinish(states[i], actions[i], id)
                             && Calls(states[n], actions[n], id)
  {
    var h := states[|actions|].core.history;
    if CalledAfterAbort(h, id) {
      var j, k :| 0 <= j < k < |h| && IsAbort(h[j], id) && IsCall(h[k], id);
      var n := CallStep(states, actions, |actions|, k);
      HistoryGrows(states, actions, n, |actions|);
      RunInvariant(states, actions, n);
      assert IsAbort(states[n].core.history[j], id);
      assert !AbortHoldsFor(states[n], id);
      var i := Overtaken(states, actions, n, id);
    }
    if i, n :| 0 <= i < n < |actions| && OvertakingFinish(states[i], actions[i], id)
                && Calls(states[n], actions[n], id)
    {
      CallFollows(states, actions, id, i, n);
    }
  }

  lemma CallFollows(states: seq<State>, actions: seq<Action>, id: nat, i: nat, n: nat)
    requires Run(states, actions) && i < n < |actions|
    requires OvertakingFinish(states[i], actions[i], id) && Calls(states[n], actions[n], id)
    ensures CalledAfterAbort(states[|actions|].core.history, id)
  {
    var h, hn := states[|actions|].core.history, states[n].core.history;
    RunAbortState(states, actions, i);
    assert Follows(states, actions, i);
    OvertakenIsAborted(states[i], id);
    var j :| 0 <= j < |states[i + 1].core.history| && IsAbort(states[i + 1].core.history[j], id);
    RunInvariant(states, actions, n);
    assert Follows(states, actions, n);
    CallAdds(states[n], id);
    HistoryGrows(states, actions, i + 1, n);
    HistoryGrows(states, actions, n + 1, |actions|);
    assert h[j] == states[n + 1].core.history[j] == hn[j];
    assert IsAbort(h[j], id) && IsCall(h[|hn|], id);
  }

  /** A record whose dispatch no finish overtakes calls nobody once a finish has aborted it. */
  lemma AbortIsFinal(states: seq<State>, actions: seq<Action>, i: nat, j: nat, k: nat)
    requires Run(states, actions) && i < |states|
    requires j < k < |states[i].core.history| && states[i].core.history[j].Finished? && states[i].core.history[j].abort
    requires forall n :: 0 <= n < i ==> !OvertakingFinish(states[n], actions[n], states[i].core.history[j].id)
    ensures var e, f := states[i].core.history[j], states[i].core.history[k];
      f.Sent? ==> f.id != e.id
  {
    var id := states[i].core.history[j].id;
    if IsCall(states[i].core.history[k], id) {
      var n := CallStep(states, actions, i, k);
      HistoryGrows(states, actions, n, i);
      RunInvariant(states, actions, n);
      assert IsAbort(states[n].core.history[j], id);
      assert !AbortHoldsFor(states[n], id);
      var m := Overtaken(states, actions, n, id);
    }
  }

  // ---- Concrete runs

  /** Receiver 7 asks for an abort just as its time runs out, and receiver 8 is called all the same, although
      the abort was accepted before the call. */
  lemma AbortOvertaken() returns (states: seq<State>, actions: seq<Action>)
    ensures Run(states, actions)
    ensures CalledAfterAbort(states[|states| - 1].core.history, 0)
  {
    states, actions := SecondTurn(true);
    states, actions := Extend(states, actions, Main(UpdateRecord));
    states, actions := Extend(states, actions, Ordered(Prepare));
    states, actions := Extend(states, actions, Ordered(Notify(Call)));
    states, actions := Extend(states, actions, Ordered(Invoke));
    var h := states[|states| - 1].core.history;
    assert IsAbort(h[|h| - 3], 0) && IsCall(h[|h| - 1], 0);
  }

  /** Receiver 7's finish has found its record when receiver 7 times out and receiver 8's turn is prepared. */
  lemma SecondTurn(abort: bool) returns (states: seq<State>, actions: seq<Action>)
    ensures Run(states, actions)
    ensures var s := states[|states| - 1];
      && s.main.Loaded? && s.main.sp == 0 && s.main.call == FinishCall(7, Payload(1, "late"), abort, false)
      && s.ordered == Preparing(0) && s.core.queue == [0] && |s.core.records| == 1
      && s.core.records[0].receivers == [Receiver(7, 0), Receiver(8, 0)]
      && s.core.records[0].nextReceiver == 1
  {
    states, actions := FirstCall();
    states, actions := Extend(states, actions, Ordered(Result(true)));
    states, actions := Extend(states, actions, Ordered(Check));
    states, actions := Extend(states, actions, Main(MatchFinish(FinishCall(7, Payload(1, "late"), abort, false))));
    states, actions := Extend(states, actions, Main(LoadState));
    states, actions := Extend(states, actions, Tick(TIMEOUT));
    states, actions := Extend(states, actions, Ordered(RunTimer));
    states, actions := Extend(states, actions, Ordered(Expire));
    states, actions := SecondDrain(states, actions);
  }

  lemma SecondDrain(states0: seq<State>, actions0: seq<Action>) returns (states: seq<State>, actions: seq<Action>)
    requires Run(states0, actions0)
    requires var s := states0[|states0| - 1];
      && s.ordered == OrderedScheduling(Look) && !s.core.scheduled && s.core.queue == [0] && |s.core.records| == 1
      && s.core.records[0].receivers == [Receiver(7, 0), Receiver(8, 0)]
      && s.core.records[0].nextReceiver == 1 && AtRest(s.core.records[0]) && !s.core.records[0].resultAbort
      && s.core.now <= s.core.records[0].dispatchTime + TIMEOUT
    ensures Run(states, actions)
    ensures var s, s0 := states[|states| - 1], states0[|states0| - 1];
      && s.main == s0.main && s.ordered == Preparing(0) && s.core.queue == [0] && s.core.records == s0.core.records
  {
    states, actions := Extend(states0, actions0, Ordered(OrderedSchedule));
    states, actions := Extend(states, actions, Ordered(OrderedSchedule));
    states, actions := Extend(states, actions, Ordered(OrderedSchedule));
    states, actions := Extend(states, actions, Ordered(RunNext(true)));
    states, actions := Extend(states, actions, Ordered(Drain));
    states, actions := Extend(states, actions, Ordered(NotifyFinal(true)));
  }
}
