/** The two maps of held-back events, one keyed by user and one by process, as values: what each operation does
    to them, and what a whole history of operations leaves in them. */
module FrozenEvents {
  import opened Listeners
  import opened Subscribers
  import opened FrozenWindow

  /** From a user or process to the buffers of its subscribers. */
  type Buffers = map<int, map<Listener, seq<Event>>>

  datatype State = State(byUid: Buffers, byPid: Buffers)

  function BufferOf(m: Buffers, key: int, l: Listener): seq<Event> {
    if key in m && l in m[key] then m[key][l] else []
  }

  /** InsertFrozenEvents and InsertFrozenEventsMap. */
  function Insert(m: Buffers, key: int, l: Listener, e: Event): Buffers {
    if key in m then m[key := m[key][l := if l in m[key] then Append(m[key][l], e) else [e]]]
    else m[key := map[l := [e]]]
  }

  /** RemoveFrozenEvents and RemoveFrozenEventsMapByPid. */
  function Drain(m: Buffers, key: int): Buffers {
    m - {key}
  }

  /** RemoveFrozenEventsBySubscriber and RemoveFrozenEventsMapBySubscriber. */
  function Forget(m: Buffers, key: int, l: Listener): Buffers {
    if key in m && l in m[key] then m[key := m[key] - {l}] else m
  }

  lemma InsertAt(m: Buffers, key: int, l: Listener, e: Event, key1: int, l1: Listener)
    ensures BufferOf(Insert(m, key, l, e), key1, l1) ==
              if key == key1 && l == l1 then Append(BufferOf(m, key, l), e) else BufferOf(m, key1, l1)
  {
    assert Append([], e) == [e] by { assert [] + [e] == [e]; }
  }

  // ---- Histories

  /** `Hold`: a frozen subscriber's event is put aside in both maps. `ThawUid` is Unfreeze, `ThawPid` is
      SetFreezeStatus for one process, `ThawAll` is UnfreezeAll, `Leave` is an unsubscription. */
  datatype Operation =
    | Hold(uid: int, pid: int, listener: Listener, event: Event)
    | ThawUid(uid: int)
    | ThawPid(pid: int)
    | ThawAll
    | Leave(uid: int, pid: int, listener: Listener)

  function Apply(s: State, op: Operation): State {
    match op
    case Hold(uid, pid, l, e) => State(Insert(s.byUid, uid, l, e), Insert(s.byPid, pid, l, e))
    case ThawUid(uid) => s.(byUid := Drain(s.byUid, uid))
    case ThawPid(pid) => s.(byPid := Drain(s.byPid, pid))
    case ThawAll => s
    case Leave(uid, pid, l) => State(Forget(s.byUid, uid, l), Forget(s.byPid, pid, l))
  }

  function After(log: seq<Operation>): State {
    if log == [] then State(map[], map[]) else Apply(After(log[..|log| - 1]), log[|log| - 1])
  }

  /** Which of a subscriber's two buffers a history is told for. */
  datatype Side = User | Process

  function KeyOf(side: Side, op: Operation): int
    requires op.Hold? || op.Leave?
  {
    if side == User then op.uid else op.pid
  }

  predicate Drains(side: Side, key: int, l: Listener, op: Operation) {
    || (side == User && op == ThawUid(key))
    || (side == Process && op == ThawPid(key))
    || (op.Leave? && KeyOf(side, op) == key && op.listener == l)
  }

  predicate Holds(side: Side, key: int, l: Listener, op: Operation) {
    op.Hold? && KeyOf(side, op) == key && op.listener == l
  }

  /** The events put aside for a subscriber since its buffer was last drained. */
  function Since(side: Side, key: int, l: Listener, log: seq<Operation>): seq<Event> {
    if log == [] then []
    else
      var before, op := log[..|log| - 1], log[|log| - 1];
      if Drains(side, key, l, op) then []
      else if Holds(side, key, l, op) then Since(side, key, l, before) + [op.event]
      else Since(side, key, l, before)
  }

  function Table(side: Side, s: State): Buffers {
    if side == User then s.byUid else s.byPid
  }

  /** What one operation does to one buffer. */
  lemma BufferStep(side: Side, key: int, l: Listener, s: State, op: Operation)
    ensures BufferOf(Table(side, Apply(s, op)), key, l) ==
              if Drains(side, key, l, op) then []
              else if Holds(side, key, l, op) then Append(BufferOf(Table(side, s), key, l), op.event)
              else BufferOf(Table(side, s), key, l)
  {
    if op.Hold? {
      InsertAt(Table(side, s), KeyOf(side, op), op.listener, op.event, key, l);
    }
  }

  /** After any history a subscriber's buffer is the window over the events since its last drain. */
  lemma {:induction false} BufferIsWindow(side: Side, key: int, l: Listener, log: seq<Operation>)
    ensures BufferOf(Table(side, After(log)), key, l) == Window(Since(side, key, l, log))
  {
    if log != [] {
      var before, op := log[..|log| - 1], log[|log| - 1];
      BufferIsWindow(side, key, l, before);
      BufferStep(side, key, l, After(before), op);
      if Holds(side, key, l, op) {
        var since := Since(side, key, l, before);
        assert (since + [op.event])[..|since|] == since;
      }
    }
  }

  /** The buffer told outright: with a clock that does not run backwards it is the newest events since the last
      drain, as many as the longest run of consecutive ones that spans at most 30 seconds; with any clock it is
      the newest of them in order. */
  lemma BufferIsExact(side: Side, key: int, l: Listener, log: seq<Operation>)
    ensures var buffer, since := BufferOf(Table(side, After(log)), key, l), Since(side, key, l, log);
            && IsSuffix(buffer, since)
            && (since != [] ==> buffer != [])
            && (Monotone(since) ==> Longest(since, |buffer|))
  {
    BufferIsWindow(side, key, l, log);
    var since := Since(side, key, l, log);
    WindowIsSuffix(since);
    if Monotone(since) {
      WindowIsLongestRun(since);
    }
  }

  /** "The events within the timeout of the newest" is what a fed buffer holds exactly if no longer run of events has
      fitted into the timeout since the last drain. */
  lemma BufferIsRecentExactly(side: Side, key: int, l: Listener, log: seq<Operation>)
    requires Since(side, key, l, log) != [] && Monotone(Since(side, key, l, log))
    ensures var buffer, since := BufferOf(Table(side, After(log)), key, l), Since(side, key, l, log);
            var n := Recent(since);
            && buffer != []
            && (buffer == since[|since| - n..] <==> Longest(since, n))
            && (since[|since| - 1].time - buffer[0].time <= FREEZE_EVENT_TIMEOUT <==> Longest(since, n))
  {
    BufferIsWindow(side, key, l, log);
    WindowIsRecentExactly(Since(side, key, l, log));
  }

  // ---- The two maps against each other

  /** A subscriber keeps its user and its process. */
  predicate Steady(uid: int, pid: int, l: Listener, op: Operation) {
    (op.Hold? || op.Leave?) && op.listener == l ==> op.uid == uid && op.pid == pid
  }

  /** Of a subscriber's two buffers one is always the end of the other, whatever was drained when, and whatever
      the clock did. */
  lemma {:induction false} OneIsTheEndOfTheOther(uid: int, pid: int, l: Listener, log: seq<Operation>)
    requires forall op :: op in log ==> Steady(uid, pid, l, op)
    ensures var u, p := BufferOf(After(log).byUid, uid, l), BufferOf(After(log).byPid, pid, l);
            IsSuffix(u, p) || IsSuffix(p, u)
  {
    if log != [] {
      var before, op := log[..|log| - 1], log[|log| - 1];
      OneIsTheEndOfTheOther(uid, pid, l, before);
      var s := After(before);
      assert op in log;
      BufferStep(User, uid, l, s, op);
      BufferStep(Process, pid, l, s, op);
      if op.Hold? && op.listener == l {
        var u, p := BufferOf(s.byUid, uid, l), BufferOf(s.byPid, pid, l);
        if IsSuffix(u, p) { AppendKeepsSuffix(u, p, op.event); } else { AppendKeepsSuffix(p, u, op.event); }
      }
    }
  }

  // ---- Replay

  /** What an operation re-sends to a subscriber from one of the maps, in order. UnfreezeAll re-sends both maps
      and clears neither. */
  function Replayed(side: Side, key: int, l: Listener, before: seq<Operation>, op: Operation): seq<Event> {
    if (side == User && op == ThawUid(key)) || (side == Process && op == ThawPid(key)) || op == ThawAll
    then BufferOf(Table(side, After(before)), key, l) else []
  }

  /** Everything re-sent to a subscriber from one of the maps by a history. */
  function Resent(side: Side, key: int, l: Listener, log: seq<Operation>): seq<Event> {
    if log == [] then []
    else Resent(side, key, l, log[..|log| - 1]) + Replayed(side, key, l, log[..|log| - 1], log[|log| - 1])
  }

  /** Everything ever put aside for a subscriber. */
  function Held(side: Side, key: int, l: Listener, log: seq<Operation>): seq<Event> {
    if log == [] then []
    else
      Held(side, key, l, log[..|log| - 1])
      + (if Holds(side, key, l, log[|log| - 1]) then [log[|log| - 1].event] else [])
  }

  /** Without UnfreezeAll each map on its own re-sends each event at most once, in the order it came, and never
      one it still keeps: what was re-sent followed by what is kept is the history with some events left out. */
  lemma {:induction false} EachMapReplaysOnce(side: Side, key: int, l: Listener, log: seq<Operation>)
    requires ThawAll !in log
    ensures IsSubsequence(Resent(side, key, l, log) + BufferOf(Table(side, After(log)), key, l),
                          Held(side, key, l, log))
  {
    if log == [] {
      assert Resent(side, key, l, log) + BufferOf(Table(side, After(log)), key, l) == [];
    } else {
      var before, op := log[..|log| - 1], log[|log| - 1];
      assert op in log && forall o :: o in before ==> o in log;
      EachMapReplaysOnce(side, key, l, before);
      ReplayStep(side, key, l, After(before), Resent(side, key, l, before), Held(side, key, l, before), op);
    }
  }

  lemma ReplayStep(side: Side, key: int, l: Listener, s: State, sent: seq<Event>, held: seq<Event>, op: Operation)
    requires op != ThawAll && IsSubsequence(sent + BufferOf(Table(side, s), key, l), held)
    ensures var kept := BufferOf(Table(side, s), key, l);
            var thawed := (side == User && op == ThawUid(key)) || (side == Process && op == ThawPid(key));
            var replayed := if thawed then kept else [];
            IsSubsequence(sent + replayed + BufferOf(Table(side, Apply(s, op)), key, l),
                          held + (if Holds(side, key, l, op) then [op.event] else []))
  {
    var kept := BufferOf(Table(side, s), key, l);
    BufferStep(side, key, l, s, op);
    assert held + [] == held && sent + [] == sent && sent + kept + [] == sent + kept;
    if Holds(side, key, l, op) {
      HoldingReplaysOnce(sent, kept, held, op.event);
    } else if op.Leave? && Drains(side, key, l, op) {
      DroppingAll(sent, kept, held);
    }
  }

  lemma HoldingReplaysOnce(sent: seq<Event>, kept: seq<Event>, held: seq<Event>, e: Event)
    requires IsSubsequence(sent + kept, held)
    ensures IsSubsequence(sent + Append(kept, e), held + [e])
  {
    SubsequenceGrows(sent + kept, held, e);
    assert sent + kept + [e] == sent + (kept + [e]);
    var longer := kept + [e];
    if Append(kept, e) != longer {
      assert sent + longer == sent + [longer[0]] + longer[1..];
      SubsequenceDrops(sent, longer[0], longer[1..], held + [e]);
    }
  }

  lemma {:induction false} DroppingAll(sent: seq<Event>, kept: seq<Event>, held: seq<Event>)
    requires IsSubsequence(sent + kept, held)
    ensures IsSubsequence(sent, held)
    decreases |kept|
  {
    if kept == [] {
      assert sent + kept == sent;
    } else {
      assert sent + kept == sent + [kept[0]] + kept[1..];
      SubsequenceDrops(sent, kept[0], kept[1..], held);
      DroppingAll(sent, kept[1..], held);
    }
  }

  lemma OneMore(side: Side, key: int, l: Listener, log: seq<Operation>, op: Operation)
    ensures After(log + [op]) == Apply(After(log), op)
    ensures Resent(side, key, l, log + [op]) == Resent(side, key, l, log) + Replayed(side, key, l, log, op)
  {
    assert (log + [op])[..|log|] == log;
  }

  /** Thawing a subscriber's process and then its user sends what each of the maps holds. */
  lemma ThawedFrom(side: Side, uid: int, pid: int, l: Listener, log: seq<Operation>)
    ensures var key := if side == User then uid else pid;
            Resent(side, key, l, log + [ThawPid(pid)] + [ThawUid(uid)]) ==
              Resent(side, key, l, log) + BufferOf(Table(side, After(log)), key, l)
  {
    var key, log1 := if side == User then uid else pid, log + [ThawPid(pid)];
    OneMore(side, key, l, log, ThawPid(pid));
    OneMore(side, key, l, log1, ThawUid(uid));
  }

  /** So the two maps together re-send events twice. */
  lemma ThawedTwice(uid: int, pid: int, l: Listener, log: seq<Operation>)
    ensures var u, p := BufferOf(After(log).byUid, uid, l), BufferOf(After(log).byPid, pid, l);
            var log2 := log + [ThawPid(pid)] + [ThawUid(uid)];
            && Resent(User, uid, l, log2) == Resent(User, uid, l, log) + u
            && Resent(Process, pid, l, log2) == Resent(Process, pid, l, log) + p
  {
    ThawedFrom(User, uid, pid, l, log);
    ThawedFrom(Process, uid, pid, l, log);
  }

  /** Thawing everything sends what both maps hold and clears neither, so the next thaw sends it all again. */
  lemma ThawAllKeeps(uid: int, pid: int, l: Listener, log: seq<Operation>)
    ensures After(log + [ThawAll]) == After(log)
    ensures var u, p := BufferOf(After(log).byUid, uid, l), BufferOf(After(log).byPid, pid, l);
            && Resent(User, uid, l, log + [ThawAll]) == Resent(User, uid, l, log) + u
            && Resent(Process, pid, l, log + [ThawAll]) == Resent(Process, pid, l, log) + p
  {
    OneMore(User, uid, l, log, ThawAll);
    OneMore(Process, pid, l, log, ThawAll);
  }

  /** A single event held once is sent to its subscriber twice, or four times. */
  lemma SentAgain(uid: int, pid: int, l: Listener, e: Event)
    ensures var log := [Hold(uid, pid, l, e)] + [ThawPid(pid)] + [ThawUid(uid)];
            Resent(User, uid, l, log) + Resent(Process, pid, l, log) == [e, e]
    ensures var log := [Hold(uid, pid, l, e)] + [ThawAll] + [ThawAll];
            Resent(User, uid, l, log) + Resent(Process, pid, l, log) == [e, e, e, e]
  {
    var held := HeldOnce(uid, pid, l, e);
    ThawedTwice(uid, pid, l, held);
    ThawAllKeeps(uid, pid, l, held);
    ThawAllKeeps(uid, pid, l, held + [ThawAll]);
  }

  lemma HeldOnce(uid: int, pid: int, l: Listener, e: Event) returns (log: seq<Operation>)
    ensures log == [Hold(uid, pid, l, e)]
    ensures BufferOf(After(log).byUid, uid, l) == BufferOf(After(log).byPid, pid, l) == [e]
    ensures Resent(User, uid, l, log) == Resent(Process, pid, l, log) == []
  {
    log := [Hold(uid, pid, l, e)];
    assert log == [] + log;
    OneMore(User, uid, l, [], log[0]);
    OneMore(Process, pid, l, [], log[0]);
    assert After([]) == State(map[], map[]);
  }
}
