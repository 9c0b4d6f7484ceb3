/** Finishing late. A finish that found its record while the record waited for the caller is carried out even if
    the record has gone on by then; these results say exactly when that happens. */
module OrderedLateFinish {
  import opened Listeners
  import opened Wrappers
  import opened OrderedRecords
  import opened OrderedDispatch
  import opened OrderedProgress
  import opened OrderedWakeUp
  import opened OrderedAborts

  predicate Distinct(receivers: seq<Receiver>) {
    forall i, j :: 0 <= i < j < |receivers| ==> receivers[i].listener != receivers[j].listener
  }

  /** A finish from a receiver whose turn is over finds no record and changes nothing. */
  lemma LateFinishIgnored(s: State, call: FinishCall, k: nat)
    requires Invariant(s) && s.main.Ready? && s.core.queue != []
    requires var r := At(s.core.records, s.core.queue[0]);
      && k < |r.receivers| && call.proxy == r.receivers[k].listener && Distinct(r.receivers)
      && (k + 1 != r.nextReceiver || r.curReceiver == None)
    ensures Step(s, Main(MatchFinish(call))) == s
  {
    assert s.core.records[s.core.queue[0]] == At(s.core.records, s.core.queue[0]);
  }

  /** The record is at the front and waits for this listener. */
  predicate Waits(c: Core, sp: nat, proxy: Listener) {
    IsFront(c, sp) && At(c.records, sp).curReceiver == Some(proxy)
  }

  /** The action takes the turn away from the receiver of this record: the timer gives up on it, a sweep finds the
      record overdue, or its own call turns out to have failed. */
  predicate EndsTurn(s: State, a: Action, sp: nat) {
    && a.Ordered?
    && match a.ordered
       case Expire => s.ordered.Expiring? && s.ordered.sp == sp
       case Drain => s.ordered.Draining? && IsFront(s.core, sp) && Overdue(At(s.core.records, sp), s.core.now)
       case Result(ok) => !ok && s.ordered.Awaiting? && s.ordered.sp == sp
       case _ => false
  }

  /** The finish under way found this record when it waited for the caller. */
  predicate Carries(s: State, sp: nat, proxy: Listener) {
    (s.main.Matched? || s.main.Loaded?) && s.main.sp == sp && s.main.call.proxy == proxy
  }

  /** Its turn `turn` (counted from 1) was given to `receivers[turn - 1]`. */
  predicate InTurn(c: Core, sp: nat, receivers: seq<Receiver>, turn: nat) {
    sp < |c.records| && At(c.records, sp).receivers == receivers && At(c.records, sp).nextReceiver == turn
  }

  /** That turn is over: the record has left the queue, has gone on, or waits for nobody and will go on. */
  predicate TurnOver(s: State, sp: nat, receivers: seq<Receiver>, turn: nat) {
    && sp < |s.core.records| && At(s.core.records, sp).receivers == receivers
    && (|| sp < Head(s.core)
        || At(s.core.records, sp).nextReceiver > turn
        || (&& At(s.core.records, sp).nextReceiver == turn
            && At(s.core.records, sp).curReceiver == None
            && !(s.ordered.Notifying? && s.ordered.sp == sp)))
  }

  // ---- A record that waits goes on waiting

  lemma WaitsDrain(s: State, sp: nat, proxy: Listener)
    requires Invariant(s) && s.ordered.Draining? && Waits(s.core, sp, proxy)
    ensures if Overdue(At(s.core.records, sp), s.core.now) then sp < Head(DrainQueue(s.core).core)
            else DrainQueue(s.core).core == s.core
    ensures |DrainQueue(s.core).core.records| == |s.core.records|
    ensures At(DrainQueue(s.core).core.records, sp).receivers == At(s.core.records, sp).receivers
  {
    assert FlowAt(s.core, s.ordered, sp);
    DrainPops(s.core);
    DrainRecords(s.core, sp);
    DropFrontFacts(s.core);
    if RemovesFront(s.core) {
      DrainPops(DropFront(s.core));
    }
  }

  lemma WaitsOrdered(s: State, a: OrderedAction, sp: nat, proxy: Listener, receivers: seq<Receiver>, turn: nat)
    requires Invariant(s) && OrderedEnabled(s.core, s.ordered, a) && !a.Drain?
    requires Waits(s.core, sp, proxy) && InTurn(s.core, sp, receivers, turn)
    ensures var s1 := Step(s, Ordered(a));
      if EndsTurn(s, Ordered(a), sp) then TurnOver(s1, sp, receivers, turn)
      else Waits(s1.core, sp, proxy) && InTurn(s1.core, sp, receivers, turn)
  {
    assert FlowAt(s.core, s.ordered, sp);
  }

  lemma WaitsStep(s: State, a: Action, sp: nat, proxy: Listener, receivers: seq<Receiver>, turn: nat)
    requires Invariant(s) && Enabled(s, a) && a != Main(UpdateRecord)
    requires Waits(s.core, sp, proxy) && InTurn(s.core, sp, receivers, turn)
    ensures var s1 := Step(s, a);
      if EndsTurn(s, a, sp) then TurnOver(s1, sp, receivers, turn)
      else Waits(s1.core, sp, proxy) && InTurn(s1.core, sp, receivers, turn)
  {
    match a
    case Tick(_) =>
    case Main(_) =>
    case Ordered(o) =>
      if o.Drain? { WaitsDrain(s, sp, proxy); } else { WaitsOrdered(s, o, sp, proxy, receivers, turn); }
  }

  // ---- A turn that is over stays over

  lemma OverTurn(s: State, a: OrderedAction, sp: nat, receivers: seq<Receiver>, turn: nat)
    requires Invariant(s) && OrderedEnabled(s.core, s.ordered, a) && (a.Prepare? || a.Notify? || a.Result?)
    requires TurnOver(s, sp, receivers, turn)
    ensures TurnOver(Step(s, Ordered(a)), sp, receivers, turn)
  {
  }

  lemma OverOrdered(s: State, a: OrderedAction, sp: nat, receivers: seq<Receiver>, turn: nat)
    requires Invariant(s) && OrderedEnabled(s.core, s.ordered, a)
    requires !a.Drain? && !a.Prepare? && !a.Notify? && !a.Result?
    requires TurnOver(s, sp, receivers, turn)
    ensures TurnOver(Step(s, Ordered(a)), sp, receivers, turn)
  {
    BetweenTurns(s.core, s.ordered, a, sp);
  }

  /** Steps that begin no turn and give a record nobody to wait for. */
  lemma BetweenTurns(c: Core, pc: OrderedPc, a: OrderedAction, sp: nat)
    requires OrderedEnabled(c, pc, a) && sp < |c.records|
    requires !a.Drain? && !a.Prepare? && !a.Notify? && !a.Result?
    ensures var (c1, pc1) := OrderedStep(c, pc, a);
      && |c1.records| == |c.records| && c1.queue == c.queue && !pc1.Notifying?
      && var r, r1 := c.records[sp], c1.records[sp];
         && r1.receivers == r.receivers && r1.nextReceiver == r.nextReceiver
         && (r.curReceiver == None ==> r1.curReceiver == None)
  {
  }

  lemma OverDrain(s: State, sp: nat, receivers: seq<Receiver>, turn: nat)
    requires Invariant(s) && s.ordered.Draining? && TurnOver(s, sp, receivers, turn)
    ensures TurnOver(Step(s, Ordered(Drain)), sp, receivers, turn)
  {
    var d := DrainQueue(s.core);
    SweptRecord(s.core, sp);
    assert At(d.core.records, sp) == d.core.records[sp] && At(s.core.records, sp) == s.core.records[sp];
  }

  /** A record is popped by the sweep, or stays as it is. */
  lemma SweptRecord(c: Core, sp: nat)
    requires QueueShape(c) && sp < |c.records|
    ensures var c1 := DrainQueue(c).core;
      && |c1.records| == |c.records| && Head(c) <= Head(c1)
      && (sp < Head(c1) || c1.records[sp] == c.records[sp]) && c1.records[sp].receivers == c.records[sp].receivers
  {
    var d := DrainQueue(c);
    DrainPops(c);
    DrainRecords(c, sp);
    if sp in d.removed {
      var i :| 0 <= i < |d.removed| && d.removed[i] == sp;
      assert sp == c.queue[i];
    }
  }

  lemma OverMain(s: State, a: MainAction, sp: nat, receivers: seq<Receiver>, turn: nat)
    requires Invariant(s) && MainEnabled(s.main, a) && TurnOver(s, sp, receivers, turn)
    ensures TurnOver(Step(s, Main(a)), sp, receivers, turn)
  {
  }

  lemma OverStep(s: State, a: Action, sp: nat, receivers: seq<Receiver>, turn: nat)
    requires Invariant(s) && Enabled(s, a) && TurnOver(s, sp, receivers, turn)
    ensures TurnOver(Step(s, a), sp, receivers, turn)
  {
    match a
    case Tick(_) =>
    case Main(m) => OverMain(s, m, sp, receivers, turn);
    case Ordered(o) =>
      match o
      case Drain => OverDrain(s, sp, receivers, turn);
      case Prepare => OverTurn(s, o, sp, receivers, turn);
      case Notify(_) => OverTurn(s, o, sp, receivers, turn);
      case Result(_) => OverTurn(s, o, sp, receivers, turn);
      case _ => OverOrdered(s, o, sp, receivers, turn);
  }

  // ---- Over whole runs

  datatype TurnState = Going | Over | Other

  /** How it stands with the turn that was given to `proxy`. */
  function TurnOf(s: State, sp: nat, proxy: Listener, receivers: seq<Receiver>, turn: nat): TurnState {
    if TurnOver(s, sp, receivers, turn) then Over
    else if Waits(s.core, sp, proxy) && InTurn(s.core, sp, receivers, turn) then Going
    else Other
  }

  lemma TurnStep(s: State, a: Action, sp: nat, proxy: Listener, receivers: seq<Receiver>, turn: nat)
    requires Invariant(s) && Enabled(s, a) && a != Main(UpdateRecord)
    requires TurnOf(s, sp, proxy, receivers, turn) != Other
    ensures TurnOf(Step(s, a), sp, proxy, receivers, turn) ==
            if EndsTurn(s, a, sp) then Over else TurnOf(s, sp, proxy, receivers, turn)
  {
    if TurnOf(s, sp, proxy, receivers, turn).Over? {
      OverStep(s, a, sp, receivers, turn);
    } else {
      WaitsStep(s, a, sp, proxy, receivers, turn);
      InvariantStep(s, a);
    }
  }

  /** Some step after the `m`th and before the `i`th ends the turn. */
  ghost predicate Ended(states: seq<State>, actions: seq<Action>, m: nat, i: nat, sp: nat)
    requires |states| == |actions| + 1 && i <= |actions|
  {
    exists k :: m < k < i && EndsTurn(states[k], actions[k], sp)
  }

  lemma {:induction false} TurnUpTo(states: seq<State>, actions: seq<Action>, m: nat, i: nat,
                                    sp: nat, proxy: Listener, receivers: seq<Receiver>, turn: nat)
    requires Run(states, actions) && m < i <= |actions|
    requires TurnOf(states[m + 1], sp, proxy, receivers, turn) == Going
    requires forall k :: m < k < i ==> actions[k] != Main(UpdateRecord)
    ensures TurnOf(states[i], sp, proxy, receivers, turn) ==
            if Ended(states, actions, m, i, sp) then Over else Going
  {
    if i > m + 1 {
      TurnUpTo(states, actions, m, i - 1, sp, proxy, receivers, turn);
      assert Follows(states, actions, i - 1);
      RunInvariant(states, actions, i - 1);
      TurnStep(states[i - 1], actions[i - 1], sp, proxy, receivers, turn);
    }
  }

  lemma CarriesStep(s: State, a: Action, sp: nat, proxy: Listener)
    requires Enabled(s, a) && a != Main(UpdateRecord) && Carries(s, sp, proxy)
    ensures Carries(Step(s, a), sp, proxy)
  {
  }

  lemma {:induction false} CarriesUpTo(states: seq<State>, actions: seq<Action>, m: nat, i: nat,
                                       sp: nat, proxy: Listener)
    requires Run(states, actions) && m < i <= |actions| && Carries(states[m + 1], sp, proxy)
    requires forall k :: m < k < i ==> actions[k] != Main(UpdateRecord)
    ensures Carries(states[i], sp, proxy)
  {
    if i > m + 1 {
      CarriesUpTo(states, actions, m, i - 1, sp, proxy);
      assert Follows(states, actions, i - 1);
      CarriesStep(states[i - 1], actions[i - 1], sp, proxy);
    }
  }

  /** When a finish is carried out, its record still waits for the caller exactly if no step since the finish found
      the record has ended the caller's turn. */
  lemma LateFinishExactly(states: seq<State>, actions: seq<Action>, m: nat, i: nat)
    requires Run(states, actions) && m < i < |actions|
    requires actions[m].Main? && actions[m].main.MatchFinish? && states[m + 1].main.Matched?
    requires actions[i] == Main(UpdateRecord) && forall k :: m < k < i ==> actions[k] != Main(UpdateRecord)
    requires Distinct(At(states[m].core.records, states[m + 1].main.sp).receivers)
    ensures var sp, proxy := states[m + 1].main.sp, actions[m].main.call.proxy;
      && states[i].main.Loaded? && states[i].main.sp == sp && states[i].main.call.proxy == proxy
      && (Waits(states[i].core, sp, proxy) <==> forall k :: m < k < i ==> !EndsTurn(states[k], actions[k], sp))
  {
    var s, sp, proxy := states[m], states[m + 1].main.sp, actions[m].main.call.proxy;
    assert Follows(states, actions, m) && Follows(states, actions, i);
    var r := At(s.core.records, sp);
    RunInvariant(states, actions, m);
    RunInvariant(states, actions, i);
    CarriesUpTo(states, actions, m, i, sp, proxy);
    TurnUpTo(states, actions, m, i, sp, proxy, r.receivers, r.nextReceiver);
    assert FlowAt(s.core, s.ordered, sp) && FlowAt(states[i].core, states[i].ordered, sp);
  }

  /** A finish of receiver 7 that found its record in time but updates it after receiver 8 has been called:
      it ends the turn of receiver 8 and replaces the result. */
  lemma LateFinishAccepted() returns (states: seq<State>, actions: seq<Action>)
    ensures Run(states, actions)
    ensures var n := |states| - 1;
      && n > 0
      && actions[n - 1] == Main(UpdateRecord)
      && states[n - 1].main.Loaded? && states[n - 1].main.call.proxy == 7
      && states[n - 1].core.queue == [0] && |states[n - 1].core.records| == 1
      && states[n - 1].core.records[0].curReceiver == Some(8)
      && |states[n].core.records| == 1 && states[n].core.records[0].curReceiver == None
      && states[n].core.records[0].result == Payload(1, "late")
  {
    states, actions := SecondTurn(false);
    states, actions := Extend(states, actions, Ordered(Prepare));
    states, actions := Extend(states, actions, Ordered(Notify(Call)));
    states, actions := Extend(states, actions, Ordered(Invoke));
    states, actions := Extend(states, actions, Main(UpdateRecord));
  }
}
