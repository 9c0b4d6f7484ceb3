/** The promises of the ordered dispatcher, for every run with any interleaving of its two queues. */
module OrderedGuarantees {
  import opened Wrappers
  import opened OrderedRecords
  import opened OrderedDispatch
  import opened OrderedProgress
  import opened OrderedHistory

  /** First in, first out, and nothing lost: what has been removed followed by what is queued is what was
      published. */
  lemma Fifo(states: seq<State>, actions: seq<Action>, i: nat)
    requires Run(states, actions) && i < |states|
    ensures Removals(states[i].core.history) + states[i].core.queue == Enqueues(states[i].core.history)
    ensures Enqueues(states[i].core.history) == Upto(|states[i].core.records|)
  {
    RunFaithful(states, actions, i);
  }

  /** One event in flight: a record that is not the front of the queue waits for nobody. */
  lemma OneInFlight(states: seq<State>, actions: seq<Action>, i: nat, id: nat)
    requires Run(states, actions) && i < |states| && id < |states[i].core.records|
    ensures !IsFront(states[i].core, id) ==> AtRest(states[i].core.records[id])
  {
    RunInvariant(states, actions, i);
  }

  /** One at a time: the calls are made in strictly increasing order of record and, within a record, of
      receiver; so every receiver is called at most once for a record. */
  lemma CallsInOrder(states: seq<State>, actions: seq<Action>, i: nat, j: nat, k: nat)
    requires Run(states, actions) && i < |states|
    requires j < k < |states[i].core.history|
    requires states[i].core.history[j].Sent? && states[i].core.history[k].Sent?
    ensures var e, f := states[i].core.history[j], states[i].core.history[k];
      Before(e.id, e.index, f.id, f.index)
  {
    RunFaithful(states, actions, i);
    var h := states[i].core.history;
    assert h[..k][j] == h[j];
    assert Justified(h[..k], h[k]);
  }

  /** Each call goes to the listener whose turn it is, and a higher priority is never called after a lower. */
  lemma PriorityRespected(states: seq<State>, actions: seq<Action>, i: nat, j: nat, k: nat)
    requires Run(states, actions) && i < |states|
    requires j < k < |states[i].core.history|
    requires states[i].core.history[j].Sent? && states[i].core.history[k].Sent?
    requires states[i].core.history[j].id == states[i].core.history[k].id
    ensures var e, f := states[i].core.history[j], states[i].core.history[k];
      var receivers := AddressOf(states[i].core.history[..j], e.id).receivers;
      && e.index < f.index < |receivers|
      && receivers[e.index].listener == e.listener && receivers[f.index].listener == f.listener
      && receivers[e.index].priority >= receivers[f.index].priority
  {
    CallsInOrder(states, actions, i, j, k);
    RunFaithful(states, actions, i);
    var h := states[i].core.history;
    assert Justified(h[..j], h[j]) && Justified(h[..k], h[k]);
    LawfulPrefix(h, j);
    AddressKnown(h[..j], h[j].id);
    AddressFixed(h, j, k, h[j].id);
    PublishedByPriority(h[..j], h[j].id);
  }

  lemma {:induction false} AddressKnown(h: seq<Event>, id: nat)
    requires Lawful(h) && AddressOf(h, id).receivers != []
    ensures id < |Enqueues(h)|
  {
    if h != [] {
      LawfulPrefix(h, |h| - 1);
      assert Justified(h[..|h| - 1], h[|h| - 1]);
      if !(h[|h| - 1].Enqueued? && h[|h| - 1].id == id) {
        AddressKnown(h[..|h| - 1], id);
      }
    }
  }

  /** The address of a record never changes once it has one. */
  lemma {:induction false} AddressFixed(h: seq<Event>, j: nat, k: nat, id: nat)
    requires Lawful(h) && j <= k <= |h| && id < |Enqueues(h[..j])|
    ensures AddressOf(h[..k], id) == AddressOf(h[..j], id) && id < |Enqueues(h[..k])|
  {
    if j < k {
      var before, e := h[..k - 1], h[k - 1];
      AddressFixed(h, j, k - 1, id);
      assert h[..k] == before + [e];
      assert Justified(before, e);
      AddressNext(before, e, id);
    }
  }

  lemma AddressNext(h: seq<Event>, e: Event, id: nat)
    requires Justified(h, e) && id < |Enqueues(h)|
    ensures AddressOf(h + [e], id) == AddressOf(h, id) && id < |Enqueues(h + [e])|
  {
    assert (h + [e])[..|h|] == h;
  }

  lemma {:induction false} PublishedByPriority(h: seq<Event>, id: nat)
    requires Lawful(h)
    ensures ByPriority(AddressOf(h, id).receivers)
  {
    if h != [] {
      LawfulPrefix(h, |h| - 1);
      PublishedByPriority(h[..|h| - 1], id);
      assert Justified(h[..|h| - 1], h[|h| - 1]);
    }
  }

  lemma LawfulPrefix(h: seq<Event>, n: nat)
    requires Lawful(h) && n <= |h|
    ensures Lawful(h[..n])
  {
    forall k | 0 <= k < n ensures Justified(h[..n][..k], h[..n][k]) {
      assert h[..n][..k] == h[..k];
    }
  }

  /** Turns come to the receivers of a record one by one, none skipped and none repeated. */
  lemma {:induction false} TurnsInOrder(h: seq<Event>, id: nat)
    requires Lawful(h)
    ensures Turns(h, id) == Upto(|Turns(h, id)|)
  {
    if h != [] {
      LawfulPrefix(h, |h| - 1);
      TurnsInOrder(h[..|h| - 1], id);
      assert Justified(h[..|h| - 1], h[|h| - 1]);
      UptoGrows(|Turns(h[..|h| - 1], id)|);
    }
  }

  /** A record that leaves the queue without having been aborted or overdue has given every one of its
      receivers exactly one turn. */
  lemma EveryReceiverHadItsTurn(states: seq<State>, actions: seq<Action>, i: nat, k: nat)
    requires Run(states, actions) && i < |states| && k < |states[i].core.history|
    requires var e := states[i].core.history[k]; e.Removed? && !e.aborted && !e.overdue
    ensures var e, h := states[i].core.history[k], states[i].core.history[..k];
      Turns(h, e.id) == Upto(|AddressOf(h, e.id).receivers|)
  {
    RunFaithful(states, actions, i);
    var e, h := states[i].core.history[k], states[i].core.history[..k];
    LawfulPrefix(states[i].core.history, k);
    TurnsInOrder(h, e.id);
    assert Justified(h, e);
  }

  /** The result chain: what a receiver, or the final subscriber, is given is what the last accepted
      finish of that record left, or the publisher's values if there was none. */
  lemma ResultChain(states: seq<State>, actions: seq<Action>, i: nat, k: nat)
    requires Run(states, actions) && i < |states| && k < |states[i].core.history|
    ensures var e, h := states[i].core.history[k], states[i].core.history[..k];
      e.Sent? || e.Final? ==> e.result == LastResult(h, e.id)
  {
    RunFaithful(states, actions, i);
    assert Justified(states[i].core.history[..k], states[i].core.history[k]);
  }

  lemma {:induction false} RemovalsGrow(h: seq<Event>, j: nat, k: nat)
    requires j <= k <= |h|
    ensures |Removals(h[..j])| <= |Removals(h[..k])|
  {
    if j < k {
      RemovalsGrow(h, j, k - 1);
      assert h[..k] == h[..k - 1] + [h[k - 1]];
      Append(h[..k - 1], h[k - 1]);
    }
  }

  /** The final subscriber is told at most once, and after that the record calls nobody. */
  lemma FinalIsLast(states: seq<State>, actions: seq<Action>, i: nat, j: nat, k: nat)
    requires Run(states, actions) && i < |states|
    requires j < k < |states[i].core.history| && states[i].core.history[j].Final?
    ensures var e, f := states[i].core.history[j], states[i].core.history[k];
      f.Sent? || f.Final? || f.Turn? ==> f.id != e.id
  {
    RunFaithful(states, actions, i);
    var h := states[i].core.history;
    assert Justified(h[..j], h[j]) && Justified(h[..k], h[k]);
    assert h[..k][j] == h[j];
    RemovalsGrow(h, j, k);
  }

  // ---- Nobody is forgotten

  /** A removed record is waiting for HandleFinalSubscriber, or has no final subscriber left to tell, or its
      final subscriber could not be reached. */
  ghost predicate Settled(s: State) {
    forall id :: 0 <= id < |s.core.records| && id < Head(s.core) ==>
      || (s.ordered.Finalizing? && id in s.ordered.removed)
      || s.core.records[id].resultTo == None
      || FinalLost(id) in s.core.history
  }

  lemma SettledDrain(s: State)
    requires Invariant(s) && Settled(s) && s.ordered.Draining?
    ensures Settled(Step(s, Ordered(Drain)))
  {
    var d := DrainQueue(s.core);
    DrainPops(s.core);
    forall id: nat | id < Head(d.core)
      ensures id in d.removed || d.core.records[id].resultTo == None || FinalLost(id) in d.core.history
    {
      SettledDrainAt(s, id);
    }
  }

  lemma SettledDrainAt(s: State, id: nat)
    requires Shape(s) && Settled(s) && s.ordered.Draining? && id < |s.core.records|
    requires id < Head(DrainQueue(s.core).core)
    ensures var d := DrainQueue(s.core);
      && |d.core.records| == |s.core.records|
      && (id in d.removed || d.core.records[id].resultTo == None || FinalLost(id) in d.core.history)
  {
    var d := DrainQueue(s.core);
    DrainPops(s.core);
    if id >= Head(s.core) {
      assert d.removed[id - Head(s.core)] == s.core.queue[id - Head(s.core)] == id;
    } else {
      DrainKeepsHistory(s.core);
      DrainRecords(s.core, id);
    }
  }

  lemma SettledMain(s: State, a: MainAction)
    requires Invariant(s) && Settled(s) && MainEnabled(s.main, a)
    ensures Settled(Step(s, Main(a)))
  {
  }

  lemma SettledFinal(s: State, proxy: bool)
    requires Invariant(s) && Settled(s) && s.ordered.Finalizing?
    ensures Settled(Step(s, Ordered(NotifyFinal(proxy))))
  {
  }

  lemma SettledOrdered(s: State, a: OrderedAction)
    requires Invariant(s) && Settled(s) && OrderedEnabled(s.core, s.ordered, a) && !a.Drain? && !a.NotifyFinal?
    ensures Settled(Step(s, Ordered(a)))
  {
  }

  lemma SettledStep(s: State, a: Action)
    requires Invariant(s) && Settled(s) && Enabled(s, a)
    ensures Settled(Step(s, a))
  {
    match a
    case Tick(_) =>
    case Main(m) => SettledMain(s, m);
    case Ordered(o) =>
      match o
      case Drain => SettledDrain(s);
      case NotifyFinal(proxy) => SettledFinal(s, proxy);
      case _ => SettledOrdered(s, o);
  }

  lemma {:induction false} RunSettled(states: seq<State>, actions: seq<Action>, i: nat)
    requires Run(states, actions) && i < |states|
    ensures Settled(states[i])
  {
    if i > 0 {
      RunSettled(states, actions, i - 1);
      RunInvariant(states, actions, i - 1);
      assert Follows(states, actions, i - 1);
      SettledStep(states[i - 1], actions[i - 1]);
    }
  }

  /** Every final subscriber is told: once ProcessNextOrderedEvent is past its removed records, each removed
      record that was published with a final subscriber has told it, unless its proxy was dead. */
  lemma FinalSubscriberIsTold(states: seq<State>, actions: seq<Action>, i: nat, id: nat)
    requires Run(states, actions) && i < |states| && !states[i].ordered.Finalizing?
    requires id in Removals(states[i].core.history)
    requires AddressOf(states[i].core.history, id).resultTo.Some?
    ensures var h := states[i].core.history;
      FinalLost(id) in h || exists k :: 0 <= k < |h| && IsFinal(h[k], id)
  {
    RunFaithful(states, actions, i);
    RunSettled(states, actions, i);
    assert id in Upto(Head(states[i].core));
  }
}
