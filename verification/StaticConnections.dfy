/** The delayed disconnect of static subscribers. A connection to a subscriber's ability is kept while there is
    work on it and for 15 seconds after each delivery; the list of actions counts the outstanding work, and a
    delayed task per delivery takes one off. */
module StaticConnections {
  import opened Lists

  const DISCONNECT_DELAY_TIME := 15000  // milliseconds

  datatype Event = Event(id: int, action: string)

  datatype Delivery = Delivery(event: Event, at: nat)

  /** A delayed DisconnectAbility task for the connection. */
  datatype Timer = Timer(action: string, due: nat)

  /** A connection, the tasks that name it, and two logs: the events handed to it and those it delivered. */
  datatype Connection = Connection(
    held: bool,              // the helper's map still has it
    proxy: bool,             // the ability is connected
    events: seq<Event>,      // cached until it is
    actions: seq<string>,    // action_: outstanding work
    tasks: seq<Event>,       // queued notify tasks
    timers: seq<Timer>,
    accepted: seq<Event>,
    delivered: seq<Delivery>)

  /** ConnectAbility for a key that has no connection. */
  function NewConnection(e: Event, now: nat): Connection {
    Connection(true, false, [e], [], [], [Timer("", now + DISCONNECT_DELAY_TIME)], [e], [])
  }

  /** The queueing half of NotifyEvent, once the ability is connected. */
  function Submit(c: Connection, e: Event): Connection {
    c.(actions := c.actions + [e.action], tasks := c.tasks + [e])
  }

  function SubmitAll(c: Connection, events: seq<Event>): Connection
    decreases |events|
  {
    if events == [] then c else SubmitAll(Submit(c, events[0]), events[1..])
  }

  /** NotifyEvent for an event newly handed to the connection. */
  function NotifyEvent(c: Connection, e: Event): Connection {
    var known := c.(accepted := c.accepted + [e]);
    if !c.proxy then known.(events := c.events + [e]) else Submit(known, e)
  }

  /** OnAbilityConnectDone; `remote` is whether it brings a remote object. Without one and without a proxy the cached
      events would be put back into the list that is being gone through, which has no meaning. */
  function OnAbilityConnectDone(c: Connection, remote: bool): Connection
    requires remote || c.proxy || c.events == []
  {
    SubmitAll(c.(proxy := c.proxy || remote), c.events).(events := [])
  }

  /** The front notify task. `alive` is whether the connection object still exists. */
  function RunTask(c: Connection, alive: bool, now: nat): Connection
    requires c.tasks != []
  {
    var e, rest := c.tasks[0], c.(tasks := c.tasks[1..]);
    if !alive || !c.proxy then rest
    else
      rest.(delivered := c.delivered + [Delivery(e, now)],
            timers := c.timers + [Timer(e.action, now + DISCONNECT_DELAY_TIME)])
  }

  /** RemoveConnection, when the remote object dies. */
  function Drop(c: Connection): Connection {
    if c.held then c.(held := false, proxy := false) else c
  }

  /** The `i`-th delayed task, DisconnectAbility, up to its test: the task's own action is taken off. */
  function TakeOff(c: Connection, i: nat): Connection
    requires i < |c.timers|
  {
    var rest := c.(timers := c.timers[..i] + c.timers[i + 1..]);
    if c.held then rest.(actions := Erase(c.actions, c.timers[i].action)) else rest
  }

  /** The whole delayed task, if nothing runs in between. */
  function Fire(c: Connection, i: nat): Connection
    requires i < |c.timers|
  {
    var left := TakeOff(c, i);
    if !c.held || left.actions != [] then left else Drop(left)
  }

  // ---- The helper with all its connections

  /** Where the thread that holds the helper's lock is inside DisconnectAbility. The connection's own lock is taken
      for the removal of the action and again for the clearing, not for the test and not in between. `connected` is
      what the ability was when the actions were tested. */
  datatype HelperPc = Free | Testing(id: nat) | Clearing(id: nat, connected: bool)

  /** Connections are named by the order they were made in. `index` is subscriberConnection_. */
  datatype State = State(now: nat, connections: seq<Connection>, index: map<string, nat>, keys: seq<string>,
                         helper: HelperPc)

  /** `Connect`, `Died` and the delayed tasks take the helper's lock; `manager` is whether there is an ability manager
      and `ok` what it answers. */
  datatype Step =
    | Connect(key: string, event: Event, manager: bool, ok: bool)
    | Done(id: nat, remote: bool)
    | Task(id: nat, alive: bool)
    | Timeout(id: nat, i: nat)
    | Test
    | Clear
    | Died(id: nat)
    | Tick(until: nat)

  predicate Enabled(s: State, step: Step) {
    match step
    // events without an action are turned away at publication
    case Connect(_, event, _, _) => s.helper.Free? && event.action != ""
    case Done(id, remote) =>
      id < |s.connections| && (remote || s.connections[id].proxy || s.connections[id].events == [])
    case Task(id, alive) => id < |s.connections| && s.connections[id].tasks != [] && (s.connections[id].held ==> alive)
    case Timeout(id, i) =>
      && s.helper.Free?
      && id < |s.connections| && i < |s.connections[id].timers| && s.connections[id].timers[i].due <= s.now
    case Test => s.helper.Testing? && s.helper.id < |s.connections|
    case Clear => s.helper.Clearing? && s.helper.id < |s.connections|
    case Died(id) => s.helper.Free? && id < |s.connections|
    case Tick(until) => until >= s.now
  }

  /** One connection changed; the map forgets it once it is no longer held. */
  function Put(s: State, id: nat, c: Connection): State
    requires id < |s.connections|
  {
    s.(connections := s.connections[id := c],
       index := if c.held then s.index else map key | key in s.index && s.index[key] != id :: s.index[key])
  }

  ghost function Apply(s: State, step: Step): State
    requires Enabled(s, step)
  {
    match step
    case Connect(key, event, manager, ok) =>
      if !manager then s
      else if key in s.index && s.index[key] < |s.connections| then
        Put(s, s.index[key], NotifyEvent(s.connections[s.index[key]], event))
      else if !ok then s
      else
        s.(connections := s.connections + [NewConnection(event, s.now)],
           index := s.index[key := |s.connections|],
           keys := s.keys + [key])
    case Done(id, remote) => Put(s, id, OnAbilityConnectDone(s.connections[id], remote))
    case Task(id, alive) => Put(s, id, RunTask(s.connections[id], alive, s.now))
    case Timeout(id, i) =>
      Put(s, id, TakeOff(s.connections[id], i)).(helper := if s.connections[id].held then Testing(id) else Free)
    case Test =>
      var c := s.connections[s.helper.id];
      s.(helper := if c.actions == [] then Clearing(s.helper.id, c.proxy) else Free)
    case Clear => Put(s, s.helper.id, Drop(s.connections[s.helper.id])).(helper := Free)
    case Died(id) => Put(s, id, Drop(s.connections[id]))
    case Tick(until) => s.(now := until)
  }

  // ---- Counting

  function TaskCount(tasks: seq<Event>, a: string): nat {
    if tasks == [] then 0 else TaskCount(tasks[..|tasks| - 1], a) + (if tasks[|tasks| - 1].action == a then 1 else 0)
  }

  function TimerCount(timers: seq<Timer>, a: string): nat {
    if timers == [] then 0
    else TimerCount(timers[..|timers| - 1], a) + (if timers[|timers| - 1].action == a then 1 else 0)
  }

  lemma TaskAppend(tasks: seq<Event>, e: Event, a: string)
    ensures TaskCount(tasks + [e], a) == TaskCount(tasks, a) + (if e.action == a then 1 else 0)
  {
    assert (tasks + [e])[..|tasks|] == tasks;
  }

  lemma {:induction false} TaskFirst(tasks: seq<Event>, a: string)
    requires tasks != []
    ensures TaskCount(tasks, a) == TaskCount(tasks[1..], a) + (if tasks[0].action == a then 1 else 0)
  {
    if |tasks| > 1 {
      TaskFirst(tasks[..|tasks| - 1], a);
      assert tasks[..|tasks| - 1][1..] == tasks[1..][..|tasks| - 2];
    }
  }

  lemma TimerAppend(timers: seq<Timer>, t: Timer, a: string)
    ensures TimerCount(timers + [t], a) == TimerCount(timers, a) + (if t.action == a then 1 else 0)
  {
    assert (timers + [t])[..|timers|] == timers;
  }

  lemma TakenBeforeLast(timers: seq<Timer>, i: nat)
    requires i < |timers| - 1
    ensures var n := |timers| - 1;
      timers[..i] + timers[i + 1..] == timers[..n][..i] + timers[..n][i + 1..] + [timers[n]]
  {
  }

  lemma {:induction false} TimerRemove(timers: seq<Timer>, i: nat, a: string)
    requires i < |timers|
    ensures TimerCount(timers[..i] + timers[i + 1..], a) ==
              TimerCount(timers, a) - (if timers[i].action == a then 1 else 0)
  {
    var n := |timers| - 1;
    var before, last := timers[..n], timers[n];
    if i < n {
      TimerRemove(before, i, a);
      TimerAppend(before[..i] + before[i + 1..], last, a);
      TakenBeforeLast(timers, i);
    } else {
      assert timers[..i] + timers[i + 1..] == before;
    }
  }

  // ---- What every connection keeps

  function EventsOf(delivered: seq<Delivery>): seq<Event> {
    if delivered == [] then [] else EventsOf(delivered[..|delivered| - 1]) + [delivered[|delivered| - 1].event]
  }

  lemma EventsAppend(delivered: seq<Delivery>, d: Delivery)
    ensures EventsOf(delivered + [d]) == EventsOf(delivered) + [d.event]
  {
    assert (delivered + [d])[..|delivered|] == delivered;
  }

  /** Every event in the connection has an action. */
  predicate Named(c: Connection) {
    && (forall e :: e in c.events ==> e.action != "")
    && (forall e :: e in c.tasks ==> e.action != "")
  }

  /** While the connection is held, its actions are exactly those of the queued tasks and of the timers of
      deliveries made. */
  ghost predicate Balanced(c: Connection) {
    && multiset(c.actions)[""] == 0
    && (forall a :: a != "" ==> multiset(c.actions)[a] == TaskCount(c.tasks, a) + TimerCount(c.timers, a))
  }

  /** Before the ability connects nothing but caching happens, and the first timer is still pending, unless its task
      has the connection in hand. */
  predicate Waiting(c: Connection, inHand: bool) {
    && c.actions == [] && c.tasks == [] && c.delivered == [] && c.accepted == c.events && c.events != []
    && (if inHand then c.timers == [] else |c.timers| == 1 && c.timers[0].action == "")
  }

  /** Nothing accepted is lost: it was delivered, or is queued, in the order it came. */
  predicate Conserved(c: Connection) {
    c.accepted == EventsOf(c.delivered) + c.tasks
  }

  /** A delivery less than 15 seconds ago still has its timer. */
  ghost predicate Covered(c: Connection, now: nat) {
    && (forall d :: d in c.delivered ==> d.event.action != "" && d.at <= now)
    && (forall d :: d in c.delivered && now < d.at + DISCONNECT_DELAY_TIME ==>
          Timer(d.event.action, d.at + DISCONNECT_DELAY_TIME) in c.timers)
  }

  /** `inHand`: a delayed task has taken its action off and has not decided yet, or not carried out its decision. */
  ghost predicate Sound(c: Connection, now: nat, inHand: bool) {
    && Named(c)
    && (c.held ==>
          && Balanced(c) && Covered(c, now)
          && (if c.proxy then Conserved(c) && c.events == [] else Waiting(c, inHand))
          && (inHand || c.tasks != [] || c.timers != []))
  }

  lemma NewIsSound(e: Event, now: nat)
    requires e.action != ""
    ensures Sound(NewConnection(e, now), now, false)
  {
    var c := NewConnection(e, now);
    assert c.timers == [] + [Timer("", now + DISCONNECT_DELAY_TIME)];
    forall a ensures TimerCount(c.timers, a) == if a == "" then 1 else 0 {
      TimerAppend([], Timer("", now + DISCONNECT_DELAY_TIME), a);
    }
  }

  lemma SubmitBalanced(c: Connection, e: Event)
    requires Balanced(c) && Named(c) && e.action != ""
    ensures Balanced(Submit(c, e)) && Named(Submit(c, e))
  {
    forall a ensures TaskCount(c.tasks + [e], a) == TaskCount(c.tasks, a) + (if e.action == a then 1 else 0) {
      TaskAppend(c.tasks, e, a);
    }
  }

  lemma {:induction false} SubmitAllBalanced(c: Connection, events: seq<Event>)
    requires Balanced(c) && Named(c) && forall e :: e in events ==> e.action != ""
    ensures Balanced(SubmitAll(c, events)) && Named(SubmitAll(c, events))
    decreases |events|
  {
    if events != [] {
      assert events[0] in events && forall e :: e in events[1..] ==> e in events;
      SubmitBalanced(c, events[0]);
      SubmitAllBalanced(Submit(c, events[0]), events[1..]);
    }
  }

  lemma {:induction false} SubmitAllShape(c: Connection, events: seq<Event>)
    ensures var c1 := SubmitAll(c, events);
            c1 == c.(actions := c1.actions, tasks := c.tasks + events)
    decreases |events|
  {
    if events == [] {
      assert c.tasks + [] == c.tasks;
    } else {
      SubmitAllShape(Submit(c, events[0]), events[1..]);
      assert c.tasks + [events[0]] + events[1..] == c.tasks + events;
    }
  }

  lemma NotifyKeeps(c: Connection, e: Event, now: nat)
    requires Sound(c, now, false) && e.action != ""
    ensures Sound(NotifyEvent(c, e), now, false)
  {
    var c1 := NotifyEvent(c, e);
    if c.proxy {
      if c.held {
        SubmitBalanced(c.(accepted := c.accepted + [e]), e);
        assert EventsOf(c.delivered) + (c.tasks + [e]) == EventsOf(c.delivered) + c.tasks + [e];
      }
    }
  }

  lemma DoneKeeps(c: Connection, remote: bool, now: nat, inHand: bool)
    requires Sound(c, now, inHand) && (remote || c.proxy || c.events == [])
    ensures Sound(OnAbilityConnectDone(c, remote), now, inHand)
  {
    var c1 := c.(proxy := c.proxy || remote);
    SubmitAllShape(c1, c.events);
    if c.held {
      SubmitAllBalanced(c1, c.events);
      if !c.proxy { assert c.tasks + c.events == EventsOf([]) + (c.tasks + c.events); }
    }
  }

  /** A connection that was not connected before has its cached events outstanding once it is. */
  lemma DoneActions(c: Connection, remote: bool)
    requires remote || c.proxy || c.events == []
    ensures var c1 := OnAbilityConnectDone(c, remote);
      && |c1.actions| == |c.actions| + |c.events| && c1.proxy == (c.proxy || remote) && c1.held == c.held
  {
    var c1 := c.(proxy := c.proxy || remote);
    SubmitAllShape(c1, c.events);
    SubmitAllActions(c1, c.events);
  }

  lemma {:induction false} SubmitAllActions(c: Connection, events: seq<Event>)
    ensures |SubmitAll(c, events).actions| == |c.actions| + |events|
    decreases |events|
  {
    if events != [] {
      SubmitAllActions(Submit(c, events[0]), events[1..]);
    }
  }

  lemma TaskBalanced(c: Connection, timer: Timer)
    requires Balanced(c) && c.tasks != [] && timer.action == c.tasks[0].action
    ensures Balanced(c.(tasks := c.tasks[1..], timers := c.timers + [timer]))
  {
    forall a ensures TaskCount(c.tasks[1..], a) + TimerCount(c.timers + [timer], a) ==
                     TaskCount(c.tasks, a) + TimerCount(c.timers, a)
    {
      TaskFirst(c.tasks, a);
      TimerAppend(c.timers, timer, a);
    }
  }

  lemma TaskConserved(c: Connection, now: nat)
    requires Conserved(c) && c.tasks != []
    ensures Conserved(c.(tasks := c.tasks[1..], delivered := c.delivered + [Delivery(c.tasks[0], now)]))
  {
    var e := c.tasks[0];
    EventsAppend(c.delivered, Delivery(e, now));
    assert [e] + c.tasks[1..] == c.tasks;
    assert EventsOf(c.delivered) + [e] + c.tasks[1..] == EventsOf(c.delivered) + ([e] + c.tasks[1..]);
  }

  lemma TaskCovered(c: Connection, e: Event, now: nat)
    requires Covered(c, now) && e.action != ""
    ensures Covered(c.(delivered := c.delivered + [Delivery(e, now)],
                       timers := c.timers + [Timer(e.action, now + DISCONNECT_DELAY_TIME)]), now)
  {
    assert forall t :: t in c.timers ==> t in c.timers + [Timer(e.action, now + DISCONNECT_DELAY_TIME)];
  }

  lemma TaskKeeps(c: Connection, alive: bool, now: nat, inHand: bool)
    requires Sound(c, now, inHand) && c.tasks != [] && (c.held ==> alive)
    ensures Sound(RunTask(c, alive, now), now, inHand)
  {
    var e := c.tasks[0];
    assert e in c.tasks && forall q :: q in c.tasks[1..] ==> q in c.tasks;
    if c.held {
      TaskBalanced(c, Timer(e.action, now + DISCONNECT_DELAY_TIME));
      TaskConserved(c, now);
      TaskCovered(c, e, now);
    }
  }

  lemma FireBalanced(c: Connection, i: nat)
    requires c.held && Balanced(c) && i < |c.timers|
    ensures Balanced(c.(timers := c.timers[..i] + c.timers[i + 1..], actions := Erase(c.actions, c.timers[i].action)))
  {
    var x := c.timers[i].action;
    forall a
      ensures multiset(Erase(c.actions, x))[a] + (if a == x && x != "" then 1 else 0) == multiset(c.actions)[a]
      ensures a != "" ==>
                TimerCount(c.timers[..i] + c.timers[i + 1..], a) + (if a == x then 1 else 0) == TimerCount(c.timers, a)
    {
      EraseCount(c.actions, x, a);
      TimerRemove(c.timers, i, a);
      assert x in c.actions <==> multiset(c.actions)[x] > 0;
    }
  }

  lemma QueuedShows(c: Connection)
    requires Balanced(c) && Named(c) && c.tasks != []
    ensures c.actions != []
  {
    var last := c.tasks[|c.tasks| - 1];
    assert last in c.tasks;
    assert multiset(c.actions)[last.action] > 0;
  }

  lemma TimerShows(c: Connection, i: nat)
    requires Balanced(c) && i < |c.timers| && c.timers[i].action != ""
    ensures c.actions != []
  {
    TimerRemove(c.timers, i, c.timers[i].action);
    assert multiset(c.actions)[c.timers[i].action] > 0;
  }

  /** No outstanding actions means no queued task and no timer of a delivery. */
  lemma NothingOutstanding(c: Connection)
    requires Balanced(c) && Named(c) && c.actions == []
    ensures c.tasks == [] && forall t :: t in c.timers ==> t.action == ""
  {
    if c.tasks != [] {
      QueuedShows(c);
    }
    forall t | t in c.timers ensures t.action == "" {
      var i :| 0 <= i < |c.timers| && c.timers[i] == t;
      if t.action != "" {
        TimerShows(c, i);
      }
    }
  }

  lemma SomethingOutstanding(c: Connection)
    requires Balanced(c) && c.actions != []
    ensures c.tasks != [] || c.timers != []
  {
    var a := c.actions[0];
    assert a in multiset(c.actions);
  }

  lemma UndueStay(timers: seq<Timer>, i: nat, now: nat)
    requires i < |timers| && timers[i].due <= now
    ensures forall t :: t in timers && t.due > now ==> t in timers[..i] + timers[i + 1..]
  {
    var rest := timers[..i] + timers[i + 1..];
    forall t | t in timers && t.due > now ensures t in rest {
      var j :| 0 <= j < |timers| && timers[j] == t;
      if j < i { assert rest[j] == t; } else { assert rest[j - 1] == t; }
    }
  }

  lemma TakeOffKeeps(c: Connection, i: nat, now: nat)
    requires Sound(c, now, false) && i < |c.timers| && c.timers[i].due <= now
    ensures Sound(TakeOff(c, i), now, c.held)
  {
    if c.held {
      FireBalanced(c, i);
      UndueStay(c.timers, i, now);
      if !c.proxy { EraseAbsent(c.actions, c.timers[i].action); }
    }
  }

  /** A connection that is found with work outstanding is let go of again. */
  lemma LeftAlone(c: Connection, now: nat)
    requires Sound(c, now, true) && c.actions != []
    ensures Sound(c, now, false)
  {
    if c.held { SomethingOutstanding(c); }
  }

  // ---- Teardown

  /** Nothing is left to do on the connection: every event it accepted was delivered, in order, and no delivery's timer
      is running any more. */
  predicate Finished(c: Connection) {
    c.tasks == [] && (forall t :: t in c.timers ==> t.action == "") && c.accepted == EventsOf(c.delivered)
  }

  /** No outstanding actions means just that, for a connection whose ability has connected. */
  lemma FinishedExactly(c: Connection, now: nat, inHand: bool)
    requires Sound(c, now, inHand) && c.held
    ensures Finished(c) <==> c.proxy && c.actions == []
    ensures c.accepted == EventsOf(c.delivered) <==> c.proxy && c.tasks == []
  {
    if c.proxy {
      assert EventsOf(c.delivered) + [] == EventsOf(c.delivered);
      OutstandingExactly(c);
    }
  }

  /** The actions are empty exactly if nothing is queued and no delivery's timer is left. */
  lemma OutstandingExactly(c: Connection)
    requires Balanced(c) && Named(c)
    ensures c.actions == [] <==> c.tasks == [] && forall t :: t in c.timers ==> t.action == ""
  {
    if c.actions == [] {
      NothingOutstanding(c);
    } else {
      var a := c.actions[0];
      assert a in multiset(c.actions);
      if c.tasks == [] {
        TimerOf(c.timers, a);
      }
    }
  }

  /** The last delivery of a finished connection was at least 15 seconds ago. */
  lemma FinishedIsOld(c: Connection, now: nat, inHand: bool)
    requires Sound(c, now, inHand) && c.held && Finished(c)
    ensures forall d :: d in c.delivered ==> d.at + DISCONNECT_DELAY_TIME <= now
  {
    forall d | d in c.delivered ensures d.at + DISCONNECT_DELAY_TIME <= now {
      assert Timer(d.event.action, d.at + DISCONNECT_DELAY_TIME) !in c.timers;
    }
  }

  /** A delayed task that nothing interrupts keeps the connection exactly if, without its own action, something is
      queued or another delivery's timer is running. */
  lemma KeptWhileBusy(c: Connection, i: nat, now: nat)
    requires Sound(c, now, false) && c.held && i < |c.timers|
    ensures var rest := c.timers[..i] + c.timers[i + 1..];
            Fire(c, i).held <==> c.tasks != [] || exists t :: t in rest && t.action != ""
  {
    FireBalanced(c, i);
    OutstandingExactly(TakeOff(c, i));
  }

  /** And if it tears the connection down, nothing is queued on it and its last delivery was at least 15 seconds ago;
      and everything it ever accepted was delivered, in order, exactly if its ability had connected. */
  lemma TeardownExactly(c: Connection, i: nat, now: nat)
    requires Sound(c, now, false) && c.held && i < |c.timers| && c.timers[i].due <= now && !Fire(c, i).held
    ensures c.tasks == []
    ensures forall d :: d in c.delivered ==> d.at + DISCONNECT_DELAY_TIME <= now
    ensures c.accepted == EventsOf(c.delivered) <==> c.proxy
  {
    var left := TakeOff(c, i);
    TakeOffKeeps(c, i, now);
    FinishedExactly(left, now, true);
    if c.proxy { FinishedIsOld(left, now, true); }
  }

  lemma {:induction false} TimerOf(timers: seq<Timer>, a: string)
    requires TimerCount(timers, a) > 0
    ensures exists t :: t in timers && t.action == a
  {
    var n := |timers| - 1;
    if timers[n].action == a {
      assert timers[n] in timers;
    } else {
      TimerOf(timers[..n], a);
      var t :| t in timers[..n] && t.action == a;
      assert t in timers;
    }
  }

  // ---- Runs

  /** The map holds exactly the connections that are held, each under its key. */
  ghost predicate Mapped(s: State) {
    && |s.keys| == |s.connections|
    && (forall key :: key in s.index ==>
          s.index[key] < |s.connections| && s.connections[s.index[key]].held && s.keys[s.index[key]] == key)
    && (forall id :: 0 <= id < |s.connections| && s.connections[id].held ==>
          s.keys[id] in s.index && s.index[s.keys[id]] == id)
  }

  predicate InHand(s: State, id: nat) {
    !s.helper.Free? && s.helper.id == id
  }

  /** Between the test and the clearing the list of actions stays as it was found, unless the ability was not
      connected at the test and has connected since. */
  ghost predicate Handled(s: State) {
    && (!s.helper.Free? ==> s.helper.id < |s.connections| && s.connections[s.helper.id].held)
    && (s.helper.Clearing? ==>
          var c := s.connections[s.helper.id];
          if s.helper.connected then c.proxy && c.actions == [] else !c.proxy || c.actions != [])
  }

  ghost predicate Invariant(s: State) {
    && Mapped(s) && Handled(s)
    && forall id :: 0 <= id < |s.connections| ==> Sound(s.connections[id], s.now, InHand(s, id))
  }

  /** One connection is changed by a step that leaves the helper where it is. */
  lemma PutKeeps(s: State, id: nat, c: Connection)
    requires Invariant(s) && id < |s.connections| && Sound(c, s.now, InHand(s, id))
    requires c.held ==> s.connections[id].held
    requires Handled(Put(s, id, c))
    ensures Invariant(Put(s, id, c))
  {
    MappedPut(s, id, c);
  }

  lemma MappedPut(s: State, id: nat, c: Connection)
    requires Mapped(s) && id < |s.connections| && (c.held ==> s.connections[id].held)
    ensures Mapped(Put(s, id, c))
  {
    if !c.held && !s.connections[id].held {
      assert forall key :: key in s.index ==> s.index[key] != id;
    }
  }

  lemma ConnectKeeps(s: State, key: string, e: Event, ok: bool)
    requires Invariant(s) && s.helper.Free? && e.action != ""
    ensures Invariant(Apply(s, Connect(key, e, true, ok)))
  {
    if key in s.index {
      var id := s.index[key];
      NotifyKeeps(s.connections[id], e, s.now);
      PutKeeps(s, id, NotifyEvent(s.connections[id], e));
    } else if ok {
      NewIsSound(e, s.now);
    }
  }

  lemma TickKeeps(s: State, until: nat)
    requires Invariant(s) && until >= s.now
    ensures Invariant(s.(now := until))
  {
    forall id | 0 <= id < |s.connections| ensures Sound(s.connections[id], until, InHand(s, id)) {
      assert Sound(s.connections[id], s.now, InHand(s, id));
    }
  }

  lemma ConnectedKeeps(s: State, id: nat, remote: bool)
    requires Invariant(s) && Enabled(s, Done(id, remote))
    ensures Invariant(Apply(s, Done(id, remote)))
  {
    var c := s.connections[id];
    assert Sound(c, s.now, InHand(s, id));
    DoneKeeps(c, remote, s.now, InHand(s, id));
    ConnectedHandled(s, id, remote);
    DoneActions(c, remote);
    PutKeeps(s, id, OnAbilityConnectDone(c, remote));
  }

  lemma ConnectedHandled(s: State, id: nat, remote: bool)
    requires Handled(s) && Enabled(s, Done(id, remote)) && Sound(s.connections[id], s.now, InHand(s, id))
    ensures Handled(Put(s, id, OnAbilityConnectDone(s.connections[id], remote)))
  {
    DoneActions(s.connections[id], remote);
  }

  lemma DeliveryKeeps(s: State, id: nat, alive: bool)
    requires Invariant(s) && Enabled(s, Task(id, alive))
    ensures Invariant(Apply(s, Task(id, alive)))
  {
    var c := s.connections[id];
    assert Sound(c, s.now, InHand(s, id));
    TaskKeeps(c, alive, s.now, InHand(s, id));
    PutKeeps(s, id, RunTask(c, alive, s.now));
  }

  lemma TimeoutKeeps(s: State, id: nat, i: nat)
    requires Invariant(s) && Enabled(s, Timeout(id, i))
    ensures Invariant(Apply(s, Timeout(id, i)))
  {
    var c, s1 := s.connections[id], Apply(s, Timeout(id, i));
    TakeOffKeeps(c, i, s.now);
    MappedPut(s, id, TakeOff(c, i));
    forall k | 0 <= k < |s1.connections| ensures Sound(s1.connections[k], s1.now, InHand(s1, k)) {
      assert Sound(s.connections[k], s.now, false);
    }
  }

  lemma TestKeeps(s: State)
    requires Invariant(s) && s.helper.Testing?
    ensures Invariant(Apply(s, Test))
  {
    var id, s1 := s.helper.id, Apply(s, Test);
    if s.connections[id].actions != [] { LeftAlone(s.connections[id], s.now); }
    forall k | 0 <= k < |s1.connections| ensures Sound(s1.connections[k], s1.now, InHand(s1, k)) {
      assert Sound(s.connections[k], s.now, InHand(s, k));
    }
  }

  lemma ClearKeeps(s: State)
    requires Invariant(s) && s.helper.Clearing?
    ensures Invariant(Apply(s, Clear))
  {
    var id, s1 := s.helper.id, Apply(s, Clear);
    MappedPut(s, id, Drop(s.connections[id]));
    forall k | 0 <= k < |s1.connections| ensures Sound(s1.connections[k], s1.now, InHand(s1, k)) {
      assert Sound(s.connections[k], s.now, InHand(s, k));
    }
  }

  lemma StepKeeps(s: State, step: Step)
    requires Invariant(s) && Enabled(s, step)
    ensures Invariant(Apply(s, step))
  {
    match step
    case Connect(key, event, manager, ok) => if manager { ConnectKeeps(s, key, event, ok); }
    case Done(id, remote) => ConnectedKeeps(s, id, remote);
    case Task(id, alive) => DeliveryKeeps(s, id, alive);
    case Timeout(id, i) => TimeoutKeeps(s, id, i);
    case Test => TestKeeps(s);
    case Clear => ClearKeeps(s);
    case Died(id) => PutKeeps(s, id, Drop(s.connections[id]));
    case Tick(until) => TickKeeps(s, until);
  }

  /** The `i`th step can be taken, and the next state follows from it. */
  ghost predicate Follows(states: seq<State>, steps: seq<Step>, i: int)
    requires |states| == |steps| + 1 && 0 <= i < |steps|
  {
    Enabled(states[i], steps[i]) && states[i + 1] == Apply(states[i], steps[i])
  }

  ghost predicate Run(states: seq<State>, steps: seq<Step>) {
    && |states| == |steps| + 1
    && states[0] == State(states[0].now, [], map[], [], Free)
    && forall i :: 0 <= i < |steps| ==> Follows(states, steps, i)
  }

  lemma {:induction false} RunInvariant(states: seq<State>, steps: seq<Step>, n: nat)
    requires Run(states, steps) && n <= |steps|
    ensures Invariant(states[n])
  {
    if n > 0 {
      RunInvariant(states, steps, n - 1);
      assert Follows(states, steps, n - 1);
      StepKeeps(states[n - 1], steps[n - 1]);
    }
  }

  /** In every run a delayed task that finds the list of actions empty has found a connection with nothing queued and
      no delivery's timer running, and lets every other be. */
  lemma RunTest(states: seq<State>, steps: seq<Step>, n: nat)
    requires Run(states, steps) && n < |steps| && steps[n] == Test
    ensures states[n].helper.Testing? && states[n].helper.id < |states[n].connections|
    ensures var c := states[n].connections[states[n].helper.id];
      && states[n + 1].helper == (if c.actions == [] then Clearing(states[n].helper.id, c.proxy) else Free)
      && (c.actions == [] <==> c.tasks == [] && forall t :: t in c.timers ==> t.action == "")
      && states[n + 1].connections == states[n].connections
  {
    RunInvariant(states, steps, n);
    assert Follows(states, steps, n);
    var id := states[n].helper.id;
    assert Sound(states[n].connections[id], states[n].now, true);
    OutstandingExactly(states[n].connections[id]);
  }

  /** In every run a delayed task tears down a finished connection exactly if the ability was connected when the task
      tested the list of actions; if it was, the last delivery is 15 seconds old. Work is outstanding at the teardown
      exactly if the ability connected between the test and the clearing; and everything accepted has been delivered by
      then exactly if the ability is connected and nothing is queued. */
  lemma RunTeardown(states: seq<State>, steps: seq<Step>, n: nat)
    requires Run(states, steps) && n < |steps| && steps[n] == Clear
    ensures states[n].helper.Clearing?
    ensures var id := states[n].helper.id;
      && id < |states[n].connections| == |states[n + 1].connections|
      && states[n].connections[id].held && !states[n + 1].connections[id].held
    ensures var s, c := states[n], states[n].connections[states[n].helper.id];
      && (Finished(c) <==> s.helper.connected)
      && (s.helper.connected ==> forall d :: d in c.delivered ==> d.at + DISCONNECT_DELAY_TIME <= s.now)
      && (c.actions != [] <==> !s.helper.connected && c.proxy)
      && (c.accepted == EventsOf(c.delivered) <==> c.proxy && c.tasks == [])
  {
    RunInvariant(states, steps, n);
    assert Follows(states, steps, n);
    var s := states[n];
    var c := s.connections[s.helper.id];
    assert Sound(c, s.now, true);
    FinishedExactly(c, s.now, true);
    if s.helper.connected { FinishedIsOld(c, s.now, true); }
  }

  // ---- Events that are not delivered

  /** A connection that has left the map and has no proxy stays as it was torn down, for all its events know, until its
      ability connects after all. */
  predicate Gone(s: State, id: nat, accepted: seq<Event>, delivered: seq<Delivery>) {
    && id < |s.connections| && !s.connections[id].held && !s.connections[id].proxy
    && s.connections[id].accepted == accepted && s.connections[id].delivered == delivered
  }

  lemma GoneStays(s: State, step: Step, id: nat, accepted: seq<Event>, delivered: seq<Delivery>)
    requires Invariant(s) && Enabled(s, step) && step != Done(id, true) && Gone(s, id, accepted, delivered)
    ensures Gone(Apply(s, step), id, accepted, delivered)
  {
    if step.Done? && step.id == id {
      SubmitAllShape(s.connections[id], []);
    }
  }

  lemma {:induction false} GoneUpTo(states: seq<State>, steps: seq<Step>, n: nat, m: nat, id: nat)
    requires Run(states, steps) && n <= m <= |steps| && id < |states[n].connections|
    requires !states[n].connections[id].held && !states[n].connections[id].proxy
    requires forall k :: n <= k < m ==> steps[k] != Done(id, true)
    ensures Gone(states[m], id, states[n].connections[id].accepted, states[n].connections[id].delivered)
  {
    if n < m {
      GoneUpTo(states, steps, n, m - 1, id);
      RunInvariant(states, steps, m - 1);
      assert Follows(states, steps, m - 1);
      GoneStays(states[m - 1], steps[m - 1], id, states[n].connections[id].accepted,
                states[n].connections[id].delivered);
    }
  }

  /** As long as its ability does not connect again, a connection that was torn down has delivered all it accepted
      exactly if it had a proxy and nothing queued when it was cleared. */
  lemma UndeliveredExactly(states: seq<State>, steps: seq<Step>, n: nat, m: nat)
    requires Run(states, steps) && n < m <= |steps| && steps[n] == Clear && states[n].helper.Clearing?
    requires forall k :: n < k < m ==> steps[k] != Done(states[n].helper.id, true)
    ensures var id := states[n].helper.id;
      && id < |states[n].connections| && id < |states[m].connections|
      && (states[m].connections[id].accepted == EventsOf(states[m].connections[id].delivered) <==>
            states[n].connections[id].proxy && states[n].connections[id].tasks == [])
  {
    var id := states[n].helper.id;
    RunTeardown(states, steps, n);
    assert Follows(states, steps, n);
    GoneUpTo(states, steps, n + 1, m, id);
  }

  /** Every event accepted was delivered, is queued or is cached, in the order it came. */
  predicate Kept(c: Connection) {
    c.accepted == EventsOf(c.delivered) + c.tasks + c.events
  }

  /** The task finds its connection without a proxy, or finds it no more. */
  predicate Skips(s: State, step: Step, id: nat) {
    step.Task? && step.id == id < |s.connections| && !(step.alive && s.connections[id].proxy)
  }

  /** How many tasks of the connection were skipped in the first `m` steps. */
  function Skipped(states: seq<State>, steps: seq<Step>, m: nat, id: nat): nat
    requires m <= |steps| < |states|
  {
    if m == 0 then 0
    else Skipped(states, steps, m - 1, id) + (if Skips(states[m - 1], steps[m - 1], id) then 1 else 0)
  }

  lemma {:induction false} EventsLength(delivered: seq<Delivery>)
    ensures |EventsOf(delivered)| == |delivered|
  {
    if delivered != [] {
      EventsLength(delivered[..|delivered| - 1]);
    }
  }

  /** This many events are neither delivered nor queued nor cached; without any, none is out of order. */
  predicate Misses(c: Connection, lost: nat) {
    && |c.accepted| == |c.delivered| + |c.tasks| + |c.events| + lost
    && (lost == 0 ==> Kept(c))
  }

  lemma MissesNotify(c: Connection, e: Event, lost: nat)
    requires Misses(c, lost) && (c.proxy ==> c.events == [])
    ensures Misses(NotifyEvent(c, e), lost)
  {
    if lost == 0 && c.proxy {
      assert EventsOf(c.delivered) + (c.tasks + [e]) + [] == EventsOf(c.delivered) + c.tasks + [] + [e];
    } else if lost == 0 {
      assert EventsOf(c.delivered) + c.tasks + (c.events + [e]) == EventsOf(c.delivered) + c.tasks + c.events + [e];
    }
  }

  lemma MissesDone(c: Connection, remote: bool, lost: nat)
    requires Misses(c, lost) && (remote || c.proxy || c.events == [])
    ensures Misses(OnAbilityConnectDone(c, remote), lost)
  {
    SubmitAllShape(c.(proxy := c.proxy || remote), c.events);
    assert EventsOf(c.delivered) + c.tasks + c.events == EventsOf(c.delivered) + (c.tasks + c.events) + [];
  }

  lemma MissesTask(c: Connection, alive: bool, now: nat, lost: nat)
    requires Misses(c, lost) && c.tasks != []
    ensures Misses(RunTask(c, alive, now), if alive && c.proxy then lost else lost + 1)
  {
    EventsAppend(c.delivered, Delivery(c.tasks[0], now));
    assert [c.tasks[0]] + c.tasks[1..] == c.tasks;
    assert EventsOf(c.delivered) + [c.tasks[0]] + c.tasks[1..] == EventsOf(c.delivered) + ([c.tasks[0]] + c.tasks[1..]);
  }

  lemma MissesStep(s: State, step: Step, id: nat, lost: nat)
    requires Invariant(s) && Enabled(s, step) && id < |s.connections| && Misses(s.connections[id], lost)
    ensures id < |Apply(s, step).connections|
    ensures Misses(Apply(s, step).connections[id], if Skips(s, step, id) then lost + 1 else lost)
  {
    var c := s.connections[id];
    match step
    case Connect(key, event, _, _) => MissesConnect(s, step, id, lost);
    case Done(done, remote) => if done == id { MissesDone(c, remote, lost); }
    case Task(task, alive) => if task == id { MissesTask(c, alive, s.now, lost); }
    case _ => SameEvents(s, step, id);
  }

  /** Only a known key's connection is given the event, and one that is known is held. */
  lemma MissesConnect(s: State, step: Step, id: nat, lost: nat)
    requires Invariant(s) && Enabled(s, step) && step.Connect?
    requires id < |s.connections| && Misses(s.connections[id], lost)
    ensures id < |Apply(s, step).connections| && Misses(Apply(s, step).connections[id], lost)
  {
    if step.key in s.index && s.index[step.key] == id {
      assert Sound(s.connections[id], s.now, InHand(s, id));
      MissesNotify(s.connections[id], step.event, lost);
    }
  }

  lemma SameEvents(s: State, step: Step, id: nat)
    requires Enabled(s, step) && !step.Connect? && !step.Done? && !step.Task? && id < |s.connections|
    ensures |Apply(s, step).connections| == |s.connections|
    ensures var c, c1 := s.connections[id], Apply(s, step).connections[id];
      c1.accepted == c.accepted && c1.delivered == c.delivered && c1.tasks == c.tasks && c1.events == c.events
  {
  }

  lemma {:induction false} SkippedNone(states: seq<State>, steps: seq<Step>, m: nat, id: nat)
    requires Run(states, steps) && m <= |steps| && id >= |states[m].connections|
    ensures Skipped(states, steps, m, id) == 0
  {
    if m > 0 {
      assert Follows(states, steps, m - 1);
      SkippedNone(states, steps, m - 1, id);
    }
  }

  lemma {:induction false} MissesUpTo(states: seq<State>, steps: seq<Step>, m: nat, id: nat)
    requires Run(states, steps) && m <= |steps| && id < |states[m].connections|
    ensures Misses(states[m].connections[id], Skipped(states, steps, m, id))
  {
    assert m > 0;
    RunInvariant(states, steps, m - 1);
    assert Follows(states, steps, m - 1);
    if id < |states[m - 1].connections| {
      MissesUpTo(states, steps, m - 1, id);
      MissesStep(states[m - 1], steps[m - 1], id, Skipped(states, steps, m - 1, id));
    } else {
      SkippedNone(states, steps, m - 1, id);
    }
  }

  /** Over whole runs: of what a connection ever accepted as many events are neither delivered nor queued nor cached as
      tasks were skipped; so nothing is lost, nor out of order, exactly if none was. */
  lemma LostExactly(states: seq<State>, steps: seq<Step>, m: nat, id: nat)
    requires Run(states, steps) && m <= |steps| && id < |states[m].connections|
    ensures var c := states[m].connections[id];
      && |c.accepted| == |c.delivered| + |c.tasks| + |c.events| + Skipped(states, steps, m, id)
      && (Kept(c) <==> Skipped(states, steps, m, id) == 0)
  {
    MissesUpTo(states, steps, m, id);
    EventsLength(states[m].connections[id].delivered);
  }

  /** And a task is skipped only on a connection that has been torn down or whose remote object has died. */
  lemma SkippedOnlyWhenGone(states: seq<State>, steps: seq<Step>, n: nat, id: nat)
    requires Run(states, steps) && n < |steps| && Skips(states[n], steps[n], id)
    ensures !states[n].connections[id].held
  {
    RunInvariant(states, steps, n);
    assert Follows(states, steps, n);
    assert Sound(states[n].connections[id], states[n].now, InHand(states[n], id));
  }

  /** In every run a held connection has a queued task or a pending timer, or is being looked at, so it is not kept for
      ever; and no key has two connections. */
  lemma RunHasWork(states: seq<State>, steps: seq<Step>, n: nat, id: nat)
    requires Run(states, steps) && n <= |steps| && id < |states[n].connections| && states[n].connections[id].held
    ensures states[n].connections[id].tasks != [] || states[n].connections[id].timers != [] || InHand(states[n], id)
    ensures |states[n].keys| == |states[n].connections|
    ensures forall other :: 0 <= other < |states[n].keys| && states[n].connections[other].held && other != id ==>
                              states[n].keys[other] != states[n].keys[id]
  {
    RunInvariant(states, steps, n);
    assert Sound(states[n].connections[id], states[n].now, InHand(states[n], id));
  }

  // ---- The delayed task in one go

  /** A delayed task that nothing interrupts does what `Fire` does. */
  lemma UninterruptedIsFire(s: State, id: nat, i: nat)
    requires Invariant(s) && Enabled(s, Timeout(id, i)) && s.connections[id].held
    ensures Enabled(Apply(s, Timeout(id, i)), Test)
    ensures var s2 := Apply(Apply(s, Timeout(id, i)), Test);
      if TakeOff(s.connections[id], i).actions != [] then s2 == Put(s, id, Fire(s.connections[id], i))
      else Enabled(s2, Clear) && Apply(s2, Clear) == Put(s, id, Fire(s.connections[id], i))
  {
    var c, s1 := s.connections[id], Apply(s, Timeout(id, i));
    assert s1.connections[id] == TakeOff(c, i) && s1.index == s.index;
    assert s.connections[id := TakeOff(c, i)][id := Fire(c, i)] == s.connections[id := Fire(c, i)];
  }

  // ---- Concrete runs

  lemma Extend(states: seq<State>, steps: seq<Step>, step: Step) returns (longer: seq<State>, more: seq<Step>)
    requires Run(states, steps) && Enabled(states[|steps|], step)
    ensures Run(longer, more) && more == steps + [step] && longer == states + [Apply(states[|steps|], step)]
  {
    longer, more := states + [Apply(states[|steps|], step)], steps + [step];
    forall i | 0 <= i < |more| ensures Follows(longer, more, i) {
      if i < |steps| { assert Follows(states, steps, i); }
    }
  }

  /** An ability that has not connected after 15 seconds: its first timer has found nothing to do. */
  lemma SlowAbility(key: string, e: Event) returns (states: seq<State>, steps: seq<Step>)
    requires e.action != ""
    ensures Run(states, steps) && |steps| == 4 && steps[0] == Connect(key, e, true, true)
    ensures var s := states[4];
      && s.helper == Clearing(0, false) && |s.connections| == 1 && s.index == map[key := 0]
      && s.connections[0] == NewConnection(e, 0).(timers := [])
  {
    states, steps := [State(0, [], map[], [], Free)], [];
    states, steps := Extend(states, steps, Connect(key, e, true, true));
    states, steps := Extend(states, steps, Tick(DISCONNECT_DELAY_TIME));
    states, steps := Extend(states, steps, Timeout(0, 0));
    states, steps := Extend(states, steps, Test);
  }

  /** Such an ability loses its connection, and the event that started it stays undelivered. */
  lemma CachedEventUndelivered(key: string, e: Event) returns (states: seq<State>, steps: seq<Step>)
    requires e.action != ""
    ensures Run(states, steps) && |steps| == 5 && steps[0] == Connect(key, e, true, true)
    ensures var last := states[|steps|];
            && last.index == map[] && |last.connections| == 1
            && last.connections[0].accepted == [e] && last.connections[0].delivered == []
  {
    states, steps := SlowAbility(key, e);
    states, steps := Extend(states, steps, Clear);
  }

  /** Unless it connects afterwards: nobody knows the connection any more, but the event is delivered. */
  lemma ConnectedAfterwards(key: string, e: Event) returns (states: seq<State>, steps: seq<Step>)
    requires e.action != ""
    ensures Run(states, steps) && |steps| == 7 && steps[4] == Clear && steps[5] == Done(0, true)
    ensures var last := states[|steps|];
            && last.index == map[] && |last.connections| == 1 && !last.connections[0].held
            && last.connections[0].accepted == EventsOf(last.connections[0].delivered) == [e]
  {
    states, steps := SlowAbility(key, e);
    states, steps := Extend(states, steps, Clear);
    var c := states[5].connections[0];
    SubmitAllShape(c.(proxy := true), [e]);
    states, steps := Extend(states, steps, Done(0, true));
    assert states[6].connections[0].tasks == [e];
    states, steps := Extend(states, steps, Task(0, true));
    EventsAppend([], Delivery(e, states[6].now));
    assert [] + [Delivery(e, states[6].now)] == [Delivery(e, states[6].now)];
  }

  /** If it connects just then, its connection is torn down all the same, and the queued event is skipped. */
  lemma ConnectedInTheGap(key: string, e: Event) returns (states: seq<State>, steps: seq<Step>)
    requires e.action != ""
    ensures Run(states, steps) && |steps| > 5 && steps[4] == Done(0, true)
    ensures var last := states[|steps|];
            && last.index == map[] && |last.connections| == 1
            && last.connections[0].accepted == [e] && last.connections[0].delivered == []
            && last.connections[0].tasks == [] && last.connections[0].events == []
  {
    states, steps := SlowAbility(key, e);
    var c := states[4].connections[0];
    SubmitAllShape(c.(proxy := true), [e]);
    states, steps := Extend(states, steps, Done(0, true));
    assert states[5].connections[0].tasks == [e];
    states, steps := Extend(states, steps, Clear);
    states, steps := Extend(states, steps, Task(0, true));
  }
}
