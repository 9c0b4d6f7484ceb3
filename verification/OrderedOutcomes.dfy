/** What each receiver's turn meets: a frozen subscriber, for which the event is put aside, a dead proxy, or a call.
    The insertions into the two maps of held events are read off a run here. */
module OrderedOutcomes {
  import opened Listeners
  import opened Wrappers
  import opened OrderedRecords
  import opened OrderedDispatch
  import opened OrderedProgress
  import opened OrderedHistory
  import opened OrderedGuarantees
  import opened OrderedDelivery
  import opened OrderedLatency
  import FrozenEvents
  import FrozenWindow

  /** A receiver of a record: the record's position in the order of publication, and the receiver's in the record. */
  datatype Place = Place(id: nat, index: nat)

  /** A turn that has met its receiver. */
  datatype Meeting = Meeting(place: Place, outcome: Outcome)

  function MeetingOf(s: State, a: Action): seq<Meeting> {
    if a.Ordered? && a.ordered.Notify? && s.ordered.Notifying? then
      [Meeting(Place(s.ordered.sp, s.ordered.index), a.ordered.outcome)]
    else []
  }

  /** The turns that have met their receivers in the first `n` steps, in order. */
  function Meetings(states: seq<State>, actions: seq<Action>, n: nat): seq<Meeting>
    requires n <= |actions| < |states|
  {
    if n == 0 then [] else Meetings(states, actions, n - 1) + MeetingOf(states[n - 1], actions[n - 1])
  }

  function Places(met: seq<Meeting>): (places: seq<Place>)
    ensures |places| == |met| && forall i :: 0 <= i < |met| ==> places[i] == met[i].place
  {
    seq(|met|, i requires 0 <= i < |met| => met[i].place)
  }

  /** The places whose turn met this. */
  function PlacesOf(met: seq<Meeting>, outcome: Outcome): seq<Place> {
    if met == [] then []
    else
      var m := met[|met| - 1];
      PlacesOf(met[..|met| - 1], outcome) + (if m.outcome == outcome then [m.place] else [])
  }

  function TurnPlaces(h: seq<Event>): seq<Place> {
    if h == [] then []
    else
      var e := h[|h| - 1];
      TurnPlaces(h[..|h| - 1]) + (if e.Turn? then [Place(e.id, e.index)] else [])
  }

  function CallPlaces(h: seq<Event>): seq<Place> {
    if h == [] then []
    else
      var e := h[|h| - 1];
      CallPlaces(h[..|h| - 1]) + (if e.Sent? then [Place(e.id, e.index)] else [])
  }

  /** The turn that has not met its receiver yet. */
  function PendingTurn(pc: OrderedPc): seq<Place> {
    if pc.Notifying? then [Place(pc.sp, pc.index)] else []
  }

  /** The call that has been decided on and not made yet. */
  function PendingCall(pc: OrderedPc): seq<Place> {
    if pc.Calling? then [Place(pc.sp, pc.index)] else []
  }

  // ---- Every turn meets one outcome

  lemma PlacesLog(h: seq<Event>, e: Event)
    ensures TurnPlaces(h + [e]) == TurnPlaces(h) + (if e.Turn? then [Place(e.id, e.index)] else [])
    ensures CallPlaces(h + [e]) == CallPlaces(h) + (if e.Sent? then [Place(e.id, e.index)] else [])
  {
    assert (h + [e])[..|h|] == h;
  }

  lemma PlacesMet(met: seq<Meeting>, m: Meeting, outcome: Outcome)
    ensures PlacesOf(met + [m], outcome) == PlacesOf(met, outcome) + (if m.outcome == outcome then [m.place] else [])
  {
    assert (met + [m])[..|met|] == met;
  }

  /** Neither turns nor calls are logged. */
  ghost predicate SamePlaces(c: Core, c1: Core) {
    TurnPlaces(c1.history) == TurnPlaces(c.history) && CallPlaces(c1.history) == CallPlaces(c.history)
  }

  lemma {:induction false} SamePlacesDrain(c: Core)
    ensures SamePlaces(c, DrainQueue(c).core)
    decreases |c.queue|
  {
    if c.queue != [] {
      PlacesLog(c.history, Forced(c.queue[0], c.now));
      if RemovesFront(c) {
        SamePlacesRemove(ForceFront(c), Overdue(At(c.records, c.queue[0]), c.now));
        SamePlacesDrain(DropFront(c));
      }
    }
  }

  lemma SamePlacesRemove(c: Core, overdue: bool)
    requires c.queue != []
    ensures SamePlaces(c, RemoveFront(c, overdue))
  {
    var r := At(c.records, c.queue[0]);
    PlacesLog(c.history, Removed(c.queue[0], r.nextReceiver, |r.receivers|, r.resultAbort, overdue, c.now));
  }

  lemma SamePlacesFinal(c: Core, sp: nat, proxy: bool)
    ensures SamePlaces(c, NotifyFinalSubscriber(c, sp, proxy))
  {
    var r := At(c.records, sp);
    PlacesLog(c.history, FinalLost(sp));
    if r.resultTo.Some? {
      PlacesLog(c.history, Final(sp, r.resultTo.value, r.result));
    }
  }

  lemma SamePlacesMain(c: Core, pc: MainPc, a: MainAction)
    requires MainEnabled(pc, a)
    ensures SamePlaces(c, MainStep(c, pc, a).0)
  {
    match a
    case Publish(receivers, resultTo, result) =>
      PlacesLog(c.history, Enqueued(|c.records|, receivers, resultTo, result));
    case UpdateRecord => PlacesLog(c.history, Finished(pc.sp, pc.call.result, pc.call.abort));
    case _ =>
  }

  lemma SamePlacesOrdered(c: Core, pc: OrderedPc, a: OrderedAction)
    requires OrderedEnabled(c, pc, a) && !a.Prepare? && !a.Invoke?
    ensures SamePlaces(c, OrderedStep(c, pc, a).0)
  {
    match a
    case Drain => SamePlacesDrain(c);
    case NotifyFinal(proxy) => if pc.removed != [] { SamePlacesFinal(c, pc.removed[0], proxy); }
    case Expire =>
      var r := At(c.records, pc.sp);
      PlacesLog(c.history, TimedOut(pc.sp, if r.nextReceiver > 0 then r.nextReceiver - 1 else 0, pc.at));
    case _ =>
  }

  /** The turns taken are those that have met their receivers and the one that is about to, and the calls decided on
      are those made and the one that is about to be. */
  predicate Accounted(turns: seq<Place>, calls: seq<Place>, pc: OrderedPc, met: seq<Meeting>) {
    turns == Places(met) + PendingTurn(pc) && PlacesOf(met, Call) == calls + PendingCall(pc)
  }

  ghost predicate AllAccounted(s: State, met: seq<Meeting>) {
    Accounted(TurnPlaces(s.core.history), CallPlaces(s.core.history), s.ordered, met)
  }

  lemma TurnBegins(turns: seq<Place>, calls: seq<Place>, sp: nat, index: nat, met: seq<Meeting>)
    requires Accounted(turns, calls, Preparing(sp), met)
    ensures Accounted(turns + [Place(sp, index)], calls, Notifying(sp, index), met)
  {
  }

  lemma TurnMeets(turns: seq<Place>, calls: seq<Place>, sp: nat, index: nat, met: seq<Meeting>, outcome: Outcome)
    requires Accounted(turns, calls, Notifying(sp, index), met)
    ensures var pc1 := if outcome.Call? then Calling(sp, index) else Checking(sp);
      Accounted(turns, calls, pc1, met + [Meeting(Place(sp, index), outcome)])
  {
    PlacesMet(met, Meeting(Place(sp, index), outcome), Call);
    assert turns == Places(met + [Meeting(Place(sp, index), outcome)]);
  }

  lemma CallMade(turns: seq<Place>, calls: seq<Place>, sp: nat, index: nat, met: seq<Meeting>)
    requires Accounted(turns, calls, Calling(sp, index), met)
    ensures Accounted(turns, calls + [Place(sp, index)], Awaiting(sp, index), met)
  {
  }

  lemma PlacesPrepare(c: Core, sp: nat)
    ensures var h, h1 := c.history, PrepareFront(c, sp).history;
      TurnPlaces(h1) == TurnPlaces(h) + [Place(sp, At(c.records, sp).nextReceiver)] && CallPlaces(h1) == CallPlaces(h)
  {
    PlacesLog(c.history, Turn(sp, At(c.records, sp).nextReceiver, c.now));
  }

  lemma PlacesInvoke(c: Core, sp: nat, index: nat)
    requires index < |At(c.records, sp).receivers|
    ensures var h, h1 := c.history, CallReceiver(c, sp, index).history;
      TurnPlaces(h1) == TurnPlaces(h) && CallPlaces(h1) == CallPlaces(h) + [Place(sp, index)]
  {
    var r := At(c.records, sp);
    PlacesLog(c.history, Sent(sp, index, r.receivers[index].listener, r.result));
  }

  lemma TurnInRange(s: State)
    requires Shape(s) && (s.ordered.Notifying? || s.ordered.Calling?)
    ensures s.ordered.index < |At(s.core.records, s.ordered.sp).receivers|
  {
    assert RecordShape(s.core.records[s.ordered.sp]);
  }

  lemma AccountedPrepare(s: State, met: seq<Meeting>)
    requires AllAccounted(s, met) && s.ordered.Preparing?
    ensures AllAccounted(Step(s, Ordered(Prepare)), met)
  {
    var c, h, sp := s.core, s.core.history, s.ordered.sp;
    PlacesPrepare(c, sp);
    TurnBegins(TurnPlaces(h), CallPlaces(h), sp, At(c.records, sp).nextReceiver, met);
  }

  lemma AccountedInvoke(s: State, met: seq<Meeting>)
    requires Shape(s) && AllAccounted(s, met) && s.ordered.Calling?
    ensures AllAccounted(Step(s, Ordered(Invoke)), met)
  {
    var h := s.core.history;
    TurnInRange(s);
    PlacesInvoke(s.core, s.ordered.sp, s.ordered.index);
    CallMade(TurnPlaces(h), CallPlaces(h), s.ordered.sp, s.ordered.index, met);
  }

  lemma AccountedMeeting(s: State, met: seq<Meeting>, outcome: Outcome)
    requires Shape(s) && AllAccounted(s, met) && s.ordered.Notifying?
    ensures AllAccounted(Step(s, Ordered(Notify(outcome))), met + MeetingOf(s, Ordered(Notify(outcome))))
  {
    var h := s.core.history;
    TurnInRange(s);
    MeetingLogsNothing(s.core, s.ordered.sp, s.ordered.index, outcome);
    TurnMeets(TurnPlaces(h), CallPlaces(h), s.ordered.sp, s.ordered.index, met, outcome);
  }

  lemma MeetingLogsNothing(c: Core, sp: nat, index: nat, outcome: Outcome)
    ensures NotifyReceiver(c, sp, index, outcome).history == c.history
  {
  }

  lemma AccountedStep(s: State, met: seq<Meeting>, a: Action)
    requires Shape(s) && AllAccounted(s, met) && Enabled(s, a)
    ensures AllAccounted(Step(s, a), met + MeetingOf(s, a))
  {
    assert met + [] == met;
    match a
    case Tick(_) =>
    case Main(m) => SamePlacesMain(s.core, s.main, m);
    case Ordered(o) =>
      match o
      case Notify(outcome) => AccountedMeeting(s, met, outcome);
      case Prepare => AccountedPrepare(s, met);
      case Invoke => AccountedInvoke(s, met);
      case _ => AccountedQuiet(s, met, o);
  }

  lemma AccountedQuiet(s: State, met: seq<Meeting>, a: OrderedAction)
    requires AllAccounted(s, met) && OrderedEnabled(s.core, s.ordered, a) && !a.Prepare? && !a.Invoke? && !a.Notify?
    ensures AllAccounted(Step(s, Ordered(a)), met)
  {
    SamePlacesOrdered(s.core, s.ordered, a);
  }

  /** In every state of a run each turn so far has met one outcome, in the order of the turns, and the calls are those
      of the turns that met a live receiver that was not frozen. */
  lemma {:induction false} TurnsMeetOnce(states: seq<State>, actions: seq<Action>, n: nat)
    requires Run(states, actions) && n < |states|
    ensures AllAccounted(states[n], Meetings(states, actions, n))
  {
    if n > 0 {
      TurnsMeetOnce(states, actions, n - 1);
      AccountedNext(states, actions, n);
    } else {
      AccountedFirst(states, actions);
    }
  }

  lemma AccountedFirst(states: seq<State>, actions: seq<Action>)
    requires Run(states, actions)
    ensures AllAccounted(states[0], Meetings(states, actions, 0))
  {
    var now: nat :| states[0] == Init(now);
    assert TurnPlaces([]) == [] && CallPlaces([]) == [];
  }

  lemma AccountedNext(states: seq<State>, actions: seq<Action>, n: nat)
    requires Run(states, actions) && 0 < n < |states|
    ensures AllAccounted(states[n - 1], Meetings(states, actions, n - 1)) ==>
              AllAccounted(states[n], Meetings(states, actions, n))
  {
    var s, met := states[n - 1], Meetings(states, actions, n - 1);
    RunInvariant(states, actions, n - 1);
    assert Follows(states, actions, n - 1);
    if AllAccounted(s, met) {
      AccountedStep(s, met, actions[n - 1]);
    }
  }

  // ---- Who is put aside

  ghost predicate Ascending(places: seq<Place>) {
    forall i, j :: 0 <= i < j < |places| ==>
      Before(places[i].id, places[i].index, places[j].id, places[j].index)
  }

  /** The turn was taken in this history. */
  predicate Taken(h: seq<Event>, p: Place) {
    p.id < |Removals(h)| || (p.id == |Removals(h)| && p.index < |Turns(h, p.id)|)
  }

  lemma TakenStays(h: seq<Event>, e: Event, p: Place)
    requires Taken(h, p)
    ensures Taken(h + [e], p)
  {
    Append(h, e);
  }

  lemma {:induction false} TurnsAscend(h: seq<Event>)
    requires Lawful(h)
    ensures Ascending(TurnPlaces(h))
    ensures forall p :: p in TurnPlaces(h) ==> Taken(h, p)
  {
    if h != [] {
      var before, e := h[..|h| - 1], h[|h| - 1];
      LawfulPrefix(h, |h| - 1);
      TurnsAscend(before);
      assert Justified(before, e) && h == before + [e];
      AscendLog(before, e);
    }
  }

  lemma AscendLog(h: seq<Event>, e: Event)
    requires Justified(h, e) && Ascending(TurnPlaces(h)) && forall p :: p in TurnPlaces(h) ==> Taken(h, p)
    ensures Ascending(TurnPlaces(h + [e]))
    ensures forall p :: p in TurnPlaces(h + [e]) ==> Taken(h + [e], p)
  {
    PlacesLog(h, e);
    forall p | p in TurnPlaces(h) ensures Taken(h + [e], p) && (e.Turn? ==> Before(p.id, p.index, e.id, e.index)) {
      TakenStays(h, e, p);
    }
    if e.Turn? {
      Append(h, e);
      assert Taken(h + [e], Place(e.id, e.index));
    }
  }

  lemma {:induction false} PlacesOfMembers(met: seq<Meeting>, outcome: Outcome, p: Place)
    ensures p in PlacesOf(met, outcome) <==> Meeting(p, outcome) in met
  {
    if met != [] {
      PlacesOfMembers(met[..|met| - 1], outcome, p);
      assert met == met[..|met| - 1] + [met[|met| - 1]];
    }
  }

  lemma {:induction false} PlacesOfAscend(met: seq<Meeting>, outcome: Outcome)
    requires Ascending(Places(met))
    ensures Ascending(PlacesOf(met, outcome))
  {
    if met != [] {
      var before, m := met[..|met| - 1], met[|met| - 1];
      PlacesOfAscend(before, outcome);
      forall p | p in PlacesOf(before, outcome) ensures Before(p.id, p.index, m.place.id, m.place.index) {
        PlacesOfMembers(before, outcome, p);
        var i :| 0 <= i < |before| && before[i] == Meeting(p, outcome);
        assert Places(met)[i] == p && Places(met)[|met| - 1] == m.place;
      }
    }
  }

  /** A turn meets only one outcome. */
  lemma OneOutcome(met: seq<Meeting>, p: Place, o: Outcome, o1: Outcome)
    requires Ascending(Places(met)) && Meeting(p, o) in met && o != o1
    ensures Meeting(p, o1) !in met
  {
    var i :| 0 <= i < |met| && met[i] == Meeting(p, o);
    forall k | 0 <= k < |met| ensures met[k] != Meeting(p, o1) {
      assert Places(met)[i] == p && Places(met)[k] == met[k].place;
    }
  }

  lemma MeetingsAscend(states: seq<State>, actions: seq<Action>, n: nat)
    requires Run(states, actions) && n < |states|
    ensures Ascending(TurnPlaces(states[n].core.history)) && Ascending(Places(Meetings(states, actions, n)))
  {
    RunFaithful(states, actions, n);
    TurnsMeetOnce(states, actions, n);
    TurnsAscend(states[n].core.history);
    var met := Meetings(states, actions, n);
    assert Places(met) == TurnPlaces(states[n].core.history)[..|met|];
  }

  /** The receivers put aside are, in the order of their turns and each once, exactly those whose turn has come and met
      neither a call nor a dead proxy. */
  lemma PutAsideExactly(states: seq<State>, actions: seq<Action>, n: nat)
    requires Run(states, actions) && n < |states|
    ensures var h, pc, met := states[n].core.history, states[n].ordered, Meetings(states, actions, n);
      && Ascending(PlacesOf(met, Frozen))
      && forall p :: p in PlacesOf(met, Frozen) <==>
           && p in TurnPlaces(h) && p !in PendingTurn(pc)
           && p !in CallPlaces(h) && p !in PendingCall(pc) && p !in PlacesOf(met, NoProxy)
  {
    var h, pc, met := states[n].core.history, states[n].ordered, Meetings(states, actions, n);
    TurnsMeetOnce(states, actions, n);
    MeetingsAscend(states, actions, n);
    PlacesOfAscend(met, Frozen);
    forall p ensures p in PlacesOf(met, Frozen) <==>
      p in TurnPlaces(h) && p !in PendingTurn(pc) && p !in PlacesOf(met, Call) && p !in PlacesOf(met, NoProxy)
    {
      FrozenOrNot(h, pc, met, p);
    }
  }

  lemma FrozenOrNot(h: seq<Event>, pc: OrderedPc, met: seq<Meeting>, p: Place)
    requires TurnPlaces(h) == Places(met) + PendingTurn(pc) && Ascending(TurnPlaces(h)) && Ascending(Places(met))
    ensures p in PlacesOf(met, Frozen) <==>
      p in TurnPlaces(h) && p !in PendingTurn(pc) && p !in PlacesOf(met, Call) && p !in PlacesOf(met, NoProxy)
  {
    PlacesOfMembers(met, Frozen, p);
    PlacesOfMembers(met, Call, p);
    PlacesOfMembers(met, NoProxy, p);
    if p in TurnPlaces(h) && p !in PendingTurn(pc) {
      assert p in Places(met);
      var i :| 0 <= i < |met| && Places(met)[i] == p;
      assert met[i].outcome.Frozen? || met[i].outcome.Call? || met[i].outcome.NoProxy?;
    }
    if Meeting(p, Frozen) in met {
      var i :| 0 <= i < |met| && met[i] == Meeting(p, Frozen);
      assert TurnPlaces(h)[i] == Places(met)[i] == p;
      if pc.Notifying? {
        assert TurnPlaces(h)[|met|] == Place(pc.sp, pc.index);
        assert Before(p.id, p.index, pc.sp, pc.index);
      }
      OneOutcome(met, p, Frozen, Call);
      OneOutcome(met, p, Frozen, NoProxy);
    }
  }

  lemma {:induction false} MeetingsGrow(states: seq<State>, actions: seq<Action>, m: nat, n: nat)
    requires Run(states, actions) && m <= n < |states|
    ensures Meetings(states, actions, m) <= Meetings(states, actions, n)
  {
    if m < n {
      MeetingsGrow(states, actions, m, n - 1);
    }
  }

  /** Once put aside for an event, a receiver is never called for it. */
  lemma PutAsideNotCalled(states: seq<State>, actions: seq<Action>, m: nat, n: nat, p: Place)
    requires Run(states, actions) && m <= n < |states| && p in PlacesOf(Meetings(states, actions, m), Frozen)
    ensures p !in CallPlaces(states[n].core.history)
  {
    MeetingsGrow(states, actions, m, n);
    PlacesOfMembers(Meetings(states, actions, m), Frozen, p);
    PlacesOfMembers(Meetings(states, actions, n), Frozen, p);
    PutAsideExactly(states, actions, n);
  }

  // ---- What is put aside

  /** Who a listener is, and what is put aside of an event. */
  datatype Origin = Origin(uid: Listener -> int, pid: Listener -> int, event: nat -> FrozenWindow.Event)

  function HoldAt(records: seq<Record>, p: Place, o: Origin): FrozenEvents.Operation {
    var receivers := At(records, p.id).receivers;
    var l := if p.index < |receivers| then receivers[p.index].listener else 0;
    FrozenEvents.Hold(o.uid(l), o.pid(l), l, o.event(p.id))
  }

  function HoldsAt(records: seq<Record>, places: seq<Place>, o: Origin): (holds: seq<FrozenEvents.Operation>)
    ensures |holds| == |places| && forall i :: 0 <= i < |places| ==> holds[i] == HoldAt(records, places[i], o)
  {
    seq(|places|, i requires 0 <= i < |places| => HoldAt(records, places[i], o))
  }

  function InsertionOf(s: State, a: Action, o: Origin): seq<FrozenEvents.Operation> {
    var met := MeetingOf(s, a);
    if met != [] && met[0].outcome.Frozen? then [HoldAt(s.core.records, met[0].place, o)] else []
  }

  /** NotifyFrozenSubscriber's two insertions, as the operations on the maps that the first `n` steps make. */
  function Insertions(states: seq<State>, actions: seq<Action>, n: nat, o: Origin): seq<FrozenEvents.Operation>
    requires n <= |actions| < |states|
  {
    if n == 0 then [] else Insertions(states, actions, n - 1, o) + InsertionOf(states[n - 1], actions[n - 1], o)
  }

  ghost predicate Known(records: seq<Record>, places: seq<Place>) {
    forall p :: p in places ==> p.id < |records|
  }

  lemma ReceiversStay(s: State, a: Action)
    requires Invariant(s) && Enabled(s, a)
    ensures SameReceivers(s.core.records, Step(s, a).core.records)
  {
    var records, records1 := s.core.records, Step(s, a).core.records;
    match a
    case Tick(_) =>
    case Main(_) =>
    case Ordered(o) =>
      if o.Drain? {
        DrainPops(s.core);
        forall id | 0 <= id < |records| ensures records1[id].receivers == records[id].receivers {
          DrainRecords(s.core, id);
        }
      } else {
        OrderedKeeps(s, o);
      }
  }

  lemma HoldsStay(records: seq<Record>, records': seq<Record>, places: seq<Place>, o: Origin)
    requires SameReceivers(records, records') && Known(records, places)
    ensures HoldsAt(records', places, o) == HoldsAt(records, places, o) && Known(records', places)
  {
  }

  /** The insertions a run makes are exactly those for the receivers put aside, in the order of their turns. */
  lemma {:induction false} InsertionsExactly(states: seq<State>, actions: seq<Action>, n: nat, o: Origin)
    requires Run(states, actions) && n < |states|
    ensures var held := PlacesOf(Meetings(states, actions, n), Frozen);
      && Known(states[n].core.records, held)
      && Insertions(states, actions, n, o) == HoldsAt(states[n].core.records, held, o)
  {
    if n > 0 {
      InsertionsExactly(states, actions, n - 1, o);
      RunInvariant(states, actions, n - 1);
      assert Follows(states, actions, n - 1);
      var met := Meetings(states, actions, n - 1);
      InsertionStep(states[n - 1], actions[n - 1], met, o);
    }
  }

  lemma InsertionStep(s: State, a: Action, met: seq<Meeting>, o: Origin)
    requires Invariant(s) && Enabled(s, a) && Known(s.core.records, PlacesOf(met, Frozen))
    ensures var held, held1 := PlacesOf(met, Frozen), PlacesOf(met + MeetingOf(s, a), Frozen);
      && Known(Step(s, a).core.records, held1)
      && HoldsAt(Step(s, a).core.records, held1, o) == HoldsAt(s.core.records, held, o) + InsertionOf(s, a, o)
  {
    var records, records1, held := s.core.records, Step(s, a).core.records, PlacesOf(met, Frozen);
    ReceiversStay(s, a);
    HoldsStay(records, records1, held, o);
    if MeetingOf(s, a) == [] {
      assert met + [] == met;
    } else {
      var m := MeetingOf(s, a)[0];
      PlacesMet(met, m, Frozen);
      FrontKnown(s, m.place);
      HoldsStay(records, records1, [m.place], o);
      HoldsConcat(records1, held, m.place, o);
      assert HoldsAt(records1, [m.place], o)[0] == HoldAt(records1, m.place, o);
    }
  }

  lemma HoldsConcat(records: seq<Record>, places: seq<Place>, p: Place, o: Origin)
    ensures HoldsAt(records, places + [p], o) == HoldsAt(records, places, o) + [HoldAt(records, p, o)]
  {
  }

  lemma FrontKnown(s: State, p: Place)
    requires Shape(s) && s.ordered.Notifying? && p == Place(s.ordered.sp, s.ordered.index)
    ensures Known(s.core.records, [p])
  {
    assert s.core.queue[0] == Head(s.core);
  }
}
