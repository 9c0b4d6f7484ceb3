/** When a subscriber is sent an event twice. Held events sit in two maps that are drained separately, and
    UnfreezeAll re-sends both and drains neither; these results say exactly when a replay repeats itself. */
module FrozenReplay {
  import opened Listeners
  import opened Lists
  import opened FrozenWindow
  import opened FrozenEvents

  function KeyFor(side: Side, uid: int, pid: int): int {
    if side == User then uid else pid
  }

  /** The operation re-sends what the map holds for this key. */
  predicate Resends(side: Side, key: int, op: Operation) {
    (side == User && op == ThawUid(key)) || (side == Process && op == ThawPid(key)) || op == ThawAll
  }

  /** The events put aside for a subscriber since the map last re-sent its buffer or dropped it. */
  function SinceSent(side: Side, key: int, l: Listener, log: seq<Operation>): seq<Event> {
    if log == [] then []
    else
      var before, op := log[..|log| - 1], log[|log| - 1];
      if Resends(side, key, op) || Drains(side, key, l, op) then []
      else if Holds(side, key, l, op) then SinceSent(side, key, l, before) + [op.event]
      else SinceSent(side, key, l, before)
  }

  lemma {:induction false} SinceSentIsSince(side: Side, key: int, l: Listener, log: seq<Operation>)
    ensures IsSuffix(SinceSent(side, key, l, log), Since(side, key, l, log))
    ensures ThawAll !in log ==> SinceSent(side, key, l, log) == Since(side, key, l, log)
  {
    if log != [] {
      SinceSentIsSince(side, key, l, log[..|log| - 1]);
      assert log[|log| - 1] in log && forall op :: op in log[..|log| - 1] ==> op in log;
    }
  }

  // ---- One buffer against what the other map, or the same one, has re-sent

  /** All of `held` up to the last `|since|` events may have been re-sent, and if `kept` goes back further than that,
      the newest of those has been. */
  ghost predicate Reaches(held: seq<Event>, kept: seq<Event>, since: seq<Event>, resent: seq<Event>) {
    && IsSuffix(since, held) && IsSuffix(kept, held)
    && (forall e :: e in resent ==> e in held[..|held| - |since|])
    && (|kept| > |since| ==> held[|held| - |since| - 1] in resent)
  }

  lemma ReachesHold(held: seq<Event>, kept: seq<Event>, since: seq<Event>, resent: seq<Event>, e: Event)
    requires Reaches(held, kept, since, resent)
    ensures Reaches(held + [e], Append(kept, e), since + [e], resent)
  {
    SuffixGrows(since, held, e);
    AppendIsSuffix(kept, held, e);
    HoldKeepsEarlier(held, e, |held| - |since|);
  }

  lemma HoldKeepsEarlier(held: seq<Event>, e: Event, n: nat)
    requires n <= |held|
    ensures (held + [e])[..n] == held[..n] && (n > 0 ==> (held + [e])[n - 1] == held[n - 1])
  {
  }

  /** A map re-sends its own buffer `own`; afterwards the buffer looked at is as before, or empty. */
  lemma ReachesSend(held: seq<Event>, kept: seq<Event>, since: seq<Event>, resent: seq<Event>, own: seq<Event>,
                    kept1: seq<Event>)
    requires Reaches(held, kept, since, resent) && IsSuffix(own, held) && (own == [] ==> since == [])
    requires kept1 == kept || kept1 == []
    ensures Reaches(held, kept1, [], resent + own)
  {
    assert held[..|held|] == held;
    forall e | e in resent + own ensures e in held {
      if e in own { assert e in held[|held| - |own|..]; } else { assert e in held[..|held| - |since|]; }
    }
    if kept1 != [] && own != [] {
      assert held[|held| - 1] == own[|own| - 1];
    }
  }

  /** The buffer looked at is dropped, and with it, or not, the count since the last replay. */
  lemma ReachesDrop(held: seq<Event>, kept: seq<Event>, since: seq<Event>, resent: seq<Event>, since1: seq<Event>)
    requires Reaches(held, kept, since, resent) && (since1 == since || since1 == [])
    ensures Reaches(held, [], since1, resent)
  {
    assert held[..|held|] == held;
  }

  /** Among distinct events the buffer holds one that has been re-sent exactly if it is longer than what came since. */
  lemma ReachesExactly(held: seq<Event>, kept: seq<Event>, since: seq<Event>, resent: seq<Event>)
    requires NoDuplicates(held) && Reaches(held, kept, since, resent)
    ensures (exists e :: e in kept && e in resent) <==> |kept| > |since|
  {
    if |kept| > |since| {
      var e := held[|held| - |since| - 1];
      assert e == kept[|kept| - |since| - 1];
    } else {
      forall e | e in kept ensures e !in resent {
        assert e in held[|held| - |kept|..] && e in held[|held| - |since|..];
      }
    }
  }

  // ---- Over whole histories

  lemma {:induction false} HeldAlike(uid: int, pid: int, l: Listener, log: seq<Operation>)
    requires forall op :: op in log ==> Steady(uid, pid, l, op)
    ensures Held(User, uid, l, log) == Held(Process, pid, l, log)
  {
    if log != [] {
      assert log[|log| - 1] in log && forall op :: op in log[..|log| - 1] ==> op in log;
      HeldAlike(uid, pid, l, log[..|log| - 1]);
    }
  }

  /** What holds of the two maps after every history. */
  ghost predicate Reached(a: Side, b: Side, uid: int, pid: int, l: Listener, log: seq<Operation>) {
    var s, ka, kb := After(log), KeyFor(a, uid, pid), KeyFor(b, uid, pid);
    && IsSuffix(BufferOf(Table(a, s), ka, l), Held(User, uid, l, log))
    && (BufferOf(Table(a, s), ka, l) == [] ==> SinceSent(a, ka, l, log) == [])
    && Reaches(Held(User, uid, l, log), BufferOf(Table(b, s), kb, l), SinceSent(a, ka, l, log), Resent(a, ka, l, log))
  }

  lemma BufferOfHeld(side: Side, key: int, l: Listener, log: seq<Operation>)
    ensures IsSuffix(BufferOf(Table(side, After(log)), key, l), Held(side, key, l, log))
    ensures BufferOf(Table(side, After(log)), key, l) == [] ==> SinceSent(side, key, l, log) == []
  {
    BufferIsExact(side, key, l, log);
    SinceSentIsSince(side, key, l, log);
    SinceIsHeld(side, key, l, log);
    SuffixOfSuffix(BufferOf(Table(side, After(log)), key, l), Since(side, key, l, log), Held(side, key, l, log));
  }

  lemma {:induction false} SinceIsHeld(side: Side, key: int, l: Listener, log: seq<Operation>)
    ensures IsSuffix(Since(side, key, l, log), Held(side, key, l, log))
  {
    if log != [] {
      SinceIsHeld(side, key, l, log[..|log| - 1]);
    }
  }

  /** One more operation, told of everything a history is asked for. */
  lemma HistoryStep(side: Side, key: int, l: Listener, log: seq<Operation>, op: Operation)
    ensures var log1 := log + [op];
      && Held(side, key, l, log1) ==
           (if Holds(side, key, l, op) then Held(side, key, l, log) + [op.event] else Held(side, key, l, log))
      && Resent(side, key, l, log1) ==
           (if Resends(side, key, op)
            then Resent(side, key, l, log) + BufferOf(Table(side, After(log)), key, l) else Resent(side, key, l, log))
      && SinceSent(side, key, l, log1) ==
           (if Resends(side, key, op) || Drains(side, key, l, op) then []
            else if Holds(side, key, l, op) then SinceSent(side, key, l, log) + [op.event]
            else SinceSent(side, key, l, log))
      && BufferOf(Table(side, After(log1)), key, l) ==
           (if Drains(side, key, l, op) then []
            else if Holds(side, key, l, op) then Append(BufferOf(Table(side, After(log)), key, l), op.event)
            else BufferOf(Table(side, After(log)), key, l))
  {
    assert (log + [op])[..|log|] == log;
    OneMore(side, key, l, log, op);
    BufferStep(side, key, l, After(log), op);
  }

  lemma ReachedStep(a: Side, b: Side, uid: int, pid: int, l: Listener, log: seq<Operation>, op: Operation)
    requires Steady(uid, pid, l, op) && Reached(a, b, uid, pid, l, log)
    ensures var ka, kb, log1 := KeyFor(a, uid, pid), KeyFor(b, uid, pid), log + [op];
      Reaches(Held(User, uid, l, log1), BufferOf(Table(b, After(log1)), kb, l), SinceSent(a, ka, l, log1),
              Resent(a, ka, l, log1))
  {
    var ka, kb, log1 := KeyFor(a, uid, pid), KeyFor(b, uid, pid), log + [op];
    HistoryStep(User, uid, l, log, op);
    HistoryStep(a, ka, l, log, op);
    HistoryStep(b, kb, l, log, op);
    var held, since, resent := Held(User, uid, l, log), SinceSent(a, ka, l, log), Resent(a, ka, l, log);
    var own, kept := BufferOf(Table(a, After(log)), ka, l), BufferOf(Table(b, After(log)), kb, l);
    if op.Hold? {
      if op.listener == l { ReachesHold(held, kept, since, resent, op.event); }
    } else if Resends(a, ka, op) {
      ReachesSend(held, kept, since, resent, own, BufferOf(Table(b, After(log1)), kb, l));
    } else if Drains(b, kb, l, op) {
      ReachesDrop(held, kept, since, resent, SinceSent(a, ka, l, log1));
    }
  }

  lemma {:induction false} AlwaysReached(a: Side, b: Side, uid: int, pid: int, l: Listener, log: seq<Operation>)
    requires forall op :: op in log ==> Steady(uid, pid, l, op)
    ensures Reached(a, b, uid, pid, l, log)
  {
    if log != [] {
      var before, op := log[..|log| - 1], log[|log| - 1];
      assert op in log && forall o :: o in before ==> o in log;
      assert log == before + [op];
      AlwaysReached(a, b, uid, pid, l, before);
      ReachedStep(a, b, uid, pid, l, before, op);
    }
    HeldAlike(uid, pid, l, log);
    BufferOfHeld(a, KeyFor(a, uid, pid), l, log);
  }

  /** One map's buffer holds an event that a map has re-sent before exactly if the buffer is longer than the events
      held since that map's last replay. */
  lemma RepeatsExactly(a: Side, b: Side, uid: int, pid: int, l: Listener, log: seq<Operation>)
    requires forall op :: op in log ==> Steady(uid, pid, l, op)
    requires NoDuplicates(Held(User, uid, l, log))
    ensures var ka, kb := KeyFor(a, uid, pid), KeyFor(b, uid, pid);
      var kept := BufferOf(Table(b, After(log)), kb, l);
      (exists e :: e in kept && e in Resent(a, ka, l, log)) <==> |kept| > |SinceSent(a, ka, l, log)|
  {
    var ka, kb := KeyFor(a, uid, pid), KeyFor(b, uid, pid);
    AlwaysReached(a, b, uid, pid, l, log);
    ReachesExactly(Held(User, uid, l, log), BufferOf(Table(b, After(log)), kb, l), SinceSent(a, ka, l, log),
                   Resent(a, ka, l, log));
  }

  /** Without UnfreezeAll: thawing a process re-sends an event that thawing the user has re-sent before exactly if the
      process's buffer is longer than what was held since the user's was drained, and the other way round. */
  lemma RepeatsWithoutThawAll(uid: int, pid: int, l: Listener, log: seq<Operation>)
    requires (forall op :: op in log ==> Steady(uid, pid, l, op)) && ThawAll !in log
    requires NoDuplicates(Held(User, uid, l, log))
    ensures var u, p := BufferOf(After(log).byUid, uid, l), BufferOf(After(log).byPid, pid, l);
      && ((exists e :: e in p && e in Resent(User, uid, l, log)) <==> |p| > |Since(User, uid, l, log)|)
      && ((exists e :: e in u && e in Resent(Process, pid, l, log)) <==> |u| > |Since(Process, pid, l, log)|)
  {
    RepeatsExactly(User, Process, uid, pid, l, log);
    RepeatsExactly(Process, User, uid, pid, l, log);
    SinceSentIsSince(User, uid, l, log);
    SinceSentIsSince(Process, pid, l, log);
  }

  // ---- Everything a subscriber is sent

  /** All a history re-sends to a subscriber, from both maps, in order. */
  function Sends(uid: int, pid: int, l: Listener, log: seq<Operation>): seq<Event> {
    if log == [] then []
    else
      var before, op := log[..|log| - 1], log[|log| - 1];
      Sends(uid, pid, l, before) + (Replayed(User, uid, l, before, op) + Replayed(Process, pid, l, before, op))
  }

  /** How many of the newest held events neither map has re-sent. */
  function Fresh(uid: int, pid: int, l: Listener, log: seq<Operation>): nat {
    var m, n := |SinceSent(User, uid, l, log)|, |SinceSent(Process, pid, l, log)|;
    if m < n then m else n
  }

  /** A thaw of a buffer that goes back beyond the fresh events, or of two buffers at once. */
  predicate Repeats(uid: int, pid: int, l: Listener, before: seq<Operation>, op: Operation) {
    var u, p := BufferOf(After(before).byUid, uid, l), BufferOf(After(before).byPid, pid, l);
    var limit := Fresh(uid, pid, l, before);
    match op
    case ThawUid(key) => key == uid && |u| > limit
    case ThawPid(key) => key == pid && |p| > limit
    case ThawAll => |u| > limit || |p| > limit || (u != [] && p != [])
    case _ => false
  }

  ghost predicate Meet(s: seq<Event>, t: seq<Event>) {
    exists e :: e in s && e in t
  }

  lemma NoDuplicatesConcat(s: seq<Event>, t: seq<Event>)
    ensures NoDuplicates(s + t) <==> NoDuplicates(s) && NoDuplicates(t) && !Meet(s, t)
  {
    var st := s + t;
    if NoDuplicates(st) {
      forall i, j | 0 <= i < j < |t| ensures t[i] != t[j] {
        assert t[i] == st[|s| + i] && t[j] == st[|s| + j];
      }
      forall i, j | 0 <= i < j < |s| ensures s[i] != s[j] {
        assert s[i] == st[i] && s[j] == st[j];
      }
      forall i, j | 0 <= i < |s| && 0 <= j < |t| ensures s[i] != t[j] {
        assert st[i] == s[i] && st[|s| + j] == t[j];
      }
    } else if NoDuplicates(s) && NoDuplicates(t) {
      var i, j :| 0 <= i < j < |st| && st[i] == st[j];
      assert st[i] in s && st[i] in t;
    }
  }

  lemma {:induction false} SendsMembers(uid: int, pid: int, l: Listener, log: seq<Operation>, e: Event)
    ensures e in Sends(uid, pid, l, log) <==> e in Resent(User, uid, l, log) || e in Resent(Process, pid, l, log)
  {
    if log != [] {
      SendsMembers(uid, pid, l, log[..|log| - 1], e);
    }
  }

  lemma {:induction false} HeldGrows(side: Side, key: int, l: Listener, log: seq<Operation>)
    requires log != [] && NoDuplicates(Held(side, key, l, log))
    ensures NoDuplicates(Held(side, key, l, log[..|log| - 1]))
  {
    var before := Held(side, key, l, log[..|log| - 1]);
    assert before <= Held(side, key, l, log);
    forall i, j | 0 <= i < j < |before| ensures before[i] != before[j] {
      assert before[i] == Held(side, key, l, log)[i] && before[j] == Held(side, key, l, log)[j];
    }
  }

  lemma SuffixNoDuplicates(a: seq<Event>, b: seq<Event>)
    requires IsSuffix(a, b) && NoDuplicates(b)
    ensures NoDuplicates(a)
  {
    forall i, j | 0 <= i < j < |a| ensures a[i] != a[j] {
      assert a[i] == b[|b| - |a| + i] && a[j] == b[|b| - |a| + j];
    }
  }

  /** A buffer holds an event already sent to the subscriber exactly if it goes back beyond the fresh events. */
  lemma BufferRepeats(side: Side, uid: int, pid: int, l: Listener, log: seq<Operation>)
    requires (forall op :: op in log ==> Steady(uid, pid, l, op)) && NoDuplicates(Held(User, uid, l, log))
    ensures var kept := BufferOf(Table(side, After(log)), KeyFor(side, uid, pid), l);
      && NoDuplicates(kept)
      && (Meet(Sends(uid, pid, l, log), kept) <==> |kept| > Fresh(uid, pid, l, log))
  {
    var kept := BufferOf(Table(side, After(log)), KeyFor(side, uid, pid), l);
    RepeatsExactly(User, side, uid, pid, l, log);
    RepeatsExactly(Process, side, uid, pid, l, log);
    forall e ensures e in Sends(uid, pid, l, log) <==>
                     e in Resent(User, uid, l, log) || e in Resent(Process, pid, l, log)
    {
      SendsMembers(uid, pid, l, log, e);
    }
    BufferOfHeld(side, KeyFor(side, uid, pid), l, log);
    HeldAlike(uid, pid, l, log);
    SuffixNoDuplicates(kept, Held(User, uid, l, log));
  }

  /** Two buffers of one subscriber that are both not empty have the newest event in common. */
  lemma BothBuffers(uid: int, pid: int, l: Listener, log: seq<Operation>)
    requires forall op :: op in log ==> Steady(uid, pid, l, op)
    ensures var u, p := BufferOf(After(log).byUid, uid, l), BufferOf(After(log).byPid, pid, l);
      Meet(u, p) <==> u != [] && p != []
  {
    var u, p := BufferOf(After(log).byUid, uid, l), BufferOf(After(log).byPid, pid, l);
    OneIsTheEndOfTheOther(uid, pid, l, log);
    if u != [] && p != [] {
      assert u[|u| - 1] == p[|p| - 1];
      assert u[|u| - 1] in u && u[|u| - 1] in p;
    }
  }

  lemma SendsOne(uid: int, pid: int, l: Listener, before: seq<Operation>, op: Operation)
    ensures var u, p := BufferOf(After(before).byUid, uid, l), BufferOf(After(before).byPid, pid, l);
      var sent := Sends(uid, pid, l, before);
      Sends(uid, pid, l, before + [op]) ==
        match op
        case ThawUid(key) => if key == uid then sent + u else sent
        case ThawPid(key) => if key == pid then sent + p else sent
        case ThawAll => sent + (u + p)
        case _ => sent
  {
    assert (before + [op])[..|before|] == before;
  }

  lemma SendsStep(uid: int, pid: int, l: Listener, before: seq<Operation>, op: Operation)
    requires (forall o :: o in before ==> Steady(uid, pid, l, o)) && NoDuplicates(Held(User, uid, l, before))
    ensures NoDuplicates(Sends(uid, pid, l, before + [op])) <==>
            NoDuplicates(Sends(uid, pid, l, before)) && !Repeats(uid, pid, l, before, op)
  {
    var u, p := BufferOf(After(before).byUid, uid, l), BufferOf(After(before).byPid, pid, l);
    var sent := Sends(uid, pid, l, before);
    SendsOne(uid, pid, l, before, op);
    BufferRepeats(User, uid, pid, l, before);
    BufferRepeats(Process, uid, pid, l, before);
    match op
    case ThawUid(_) => NoDuplicatesConcat(sent, u);
    case ThawPid(_) => NoDuplicatesConcat(sent, p);
    case ThawAll =>
      BothBuffers(uid, pid, l, before);
      NoDuplicatesConcat(u, p);
      NoDuplicatesConcat(sent, u + p);
      MeetConcat(sent, u, p);
    case _ =>
  }

  lemma MeetConcat(s: seq<Event>, t: seq<Event>, t': seq<Event>)
    ensures Meet(s, t + t') <==> Meet(s, t) || Meet(s, t')
  {
    if Meet(s, t) {
      var e :| e in s && e in t;
      assert e in t + t';
    } else if Meet(s, t') {
      var e :| e in s && e in t';
      assert e in t + t';
    }
  }

  /** A history sends a subscriber no event twice exactly if no thaw in it reaches back beyond the fresh events, and
      no UnfreezeAll finds the subscriber in both maps. */
  lemma {:induction false} NothingTwiceExactly(uid: int, pid: int, l: Listener, log: seq<Operation>)
    requires (forall op :: op in log ==> Steady(uid, pid, l, op)) && NoDuplicates(Held(User, uid, l, log))
    ensures NoDuplicates(Sends(uid, pid, l, log)) <==>
            forall k :: 0 <= k < |log| ==> !Repeats(uid, pid, l, log[..k], log[k])
  {
    if log != [] {
      var n := |log| - 1;
      var before := log[..n];
      assert log == before + [log[n]] && forall op :: op in before ==> op in log;
      HeldGrows(User, uid, l, log);
      NothingTwiceExactly(uid, pid, l, before);
      SendsStep(uid, pid, l, before, log[n]);
      forall k | 0 <= k < n ensures before[..k] == log[..k] && before[k] == log[k] {}
    }
  }
}
