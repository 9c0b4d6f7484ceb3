/** StaticSubscriberConnection and AbilityManagerHelper themselves: connections are heap objects changed in
    place, and each method is proved against what it does to the connection's value. */
module AbilityManagerHelper {
  import opened Lists
  import opened Wrappers
  import opened StaticConnections

  class StaticSubscriberConnection {
    var proxy: bool
    var events: seq<Event>
    var actions: seq<string>
    var tasks: seq<Event>     // staticNotifyQueue_
    var timers: seq<Timer>    // the helper's delayed tasks that name this connection
    ghost var accepted: seq<Event>
    ghost var delivered: seq<Delivery>

    ghost function Value(held: bool): Connection
      reads this
    {
      Connection(held, proxy, events, actions, tasks, timers, accepted, delivered)
    }

    constructor (event: Event)
      ensures Value(true) == NewConnection(event, 0).(timers := [])
    {
      proxy, events, actions, tasks, timers := false, [event], [], [], [];
      accepted, delivered := [event], [];
    }

    /** DisconnectServiceAbilityDelay. */
    method DisconnectDelay(action: string, now: nat)
      modifies this`timers
      ensures timers == old(timers) + [Timer(action, now + DISCONNECT_DELAY_TIME)]
    {
      timers := timers + [Timer(action, now + DISCONNECT_DELAY_TIME)];
    }

    /** Caches the event, or counts its action and queues its delivery. */
    method Handle(event: Event)
      modifies this`events, this`actions, this`tasks
      ensures forall held :: Value(held) == if old(proxy) then Submit(old(Value(held)), event)
                                            else old(Value(held)).(events := old(events) + [event])
    {
      if !proxy {
        events := events + [event];
        return;
      }
      actions := actions + [event.action];
      tasks := tasks + [event];
    }

    method NotifyEvent(event: Event)
      modifies this
      ensures forall held :: Value(held) == StaticConnections.NotifyEvent(old(Value(held)), event)
    {
      accepted := accepted + [event];
      Handle(event);
    }

    /** The ability connected: everything cached is handled again. Without a remote object, without a proxy and with
        events cached the loop would append to the list it goes through; that call has no meaning. */
    method OnAbilityConnectDone(remote: bool)
      requires remote || proxy || events == []
      modifies this
      ensures forall held :: Value(held) == StaticConnections.OnAbilityConnectDone(old(Value(held)), remote)
    {
      if remote {
        proxy := true;
      }
      var cached := events;
      for i := 0 to |cached|
        invariant proxy == (old(proxy) || remote)
        invariant forall held ::
                    SubmitAll(Value(held), cached[i..]) ==
                      SubmitAll(old(Value(held)).(proxy := old(proxy) || remote), cached)
      {
        assert cached[i..][0] == cached[i] && cached[i..][1..] == cached[i + 1..];
        Handle(cached[i]);
      }
      assert cached[|cached|..] == [];
      events := [];
    }

    /** The front task of the notify queue, in a connection that still exists. */
    method RunTask(now: nat)
      requires tasks != []
      modifies this
      ensures forall held :: Value(held) == StaticConnections.RunTask(old(Value(held)), true, now)
    {
      var event := tasks[0];
      tasks := tasks[1..];
      if !proxy {
        return;
      }
      delivered := delivered + [Delivery(event, now)];
      DisconnectDelay(event.action, now);
    }

    method RemoveEvent(action: string)
      modifies this`actions
      ensures actions == Erase(old(actions), action)
    {
      for i := 0 to |actions|
        invariant actions == old(actions) && action !in actions[..i]
      {
        if actions[i] == action {
          EraseAt(actions, i);
          actions := actions[..i] + actions[i + 1..];
          return;
        }
      }
      EraseAbsent(actions, action);
    }

    method Clear()
      modifies this`proxy
      ensures !proxy
    {
      proxy := false;
    }
  }

  class Helper {
    var subscriberConnection: map<string, StaticSubscriberConnection>

    ghost predicate Has(c: StaticSubscriberConnection)
      reads this
    {
      exists key :: key in subscriberConnection && subscriberConnection[key] == c
    }

    /** No connection is under two keys. */
    ghost predicate Valid()
      reads this
    {
      forall k1, k2 :: (k1 in subscriberConnection && k2 in subscriberConnection
                        && subscriberConnection[k1] == subscriberConnection[k2]) ==> k1 == k2
    }

    constructor ()
      ensures Valid() && subscriberConnection == map[]
    {
      subscriberConnection := map[];
    }

    /** A known key's connection is notified; an unknown one gets a connection if the ability manager agrees. Without
        an ability manager nothing happens. */
    method ConnectAbility(key: string, event: Event, manager: bool, ok: bool, now: nat) returns (connected: bool)
      requires Valid()
      modifies this, if key in subscriberConnection then {subscriberConnection[key]} else {}
      ensures Valid() && connected == (manager && (ok || old(key in subscriberConnection)))
      ensures !manager ==> unchanged(this) && (key in subscriberConnection ==> unchanged(subscriberConnection[key]))
      ensures manager && old(key in subscriberConnection) ==>
                && subscriberConnection == old(subscriberConnection)
                && subscriberConnection[key].Value(true) ==
                     StaticConnections.NotifyEvent(old(subscriberConnection[key].Value(true)), event)
      ensures manager && old(key !in subscriberConnection) && ok ==>
                && key in subscriberConnection && fresh(subscriberConnection[key])
                && subscriberConnection == old(subscriberConnection)[key := subscriberConnection[key]]
                && subscriberConnection[key].Value(true) == NewConnection(event, now)
      ensures old(key !in subscriberConnection) && !ok ==> subscriberConnection == old(subscriberConnection)
    {
      if !manager {
        return false;
      }
      if key in subscriberConnection {
        subscriberConnection[key].NotifyEvent(event);
        return true;
      }
      if !ok {
        return false;
      }
      var connection := new StaticSubscriberConnection(event);
      subscriberConnection := subscriberConnection[key := connection];
      connection.DisconnectDelay("", now);
      return true;
    }

    /** The key a connection is under. */
    method Find(connection: StaticSubscriberConnection) returns (found: bool, key: string)
      ensures found <==> Has(connection)
      ensures found ==> key in subscriberConnection && subscriberConnection[key] == connection
    {
      var keys := subscriberConnection.Keys;
      while keys != {}
        invariant keys <= subscriberConnection.Keys
        invariant forall k :: k in subscriberConnection && k !in keys ==> subscriberConnection[k] != connection
        decreases |keys|
      {
        ghost var someone := Someone(keys);
        key :| key in keys;
        if subscriberConnection[key] == connection {
          return true, key;
        }
        keys := keys - {key};
      }
      return false, "";
    }

    /** RemoveConnection: what the death of the remote object does. */
    method RemoveConnection(connection: StaticSubscriberConnection)
      requires Valid()
      modifies this, connection`proxy
      ensures Valid() && !Has(connection)
      ensures connection.Value(false) == Drop(old(connection.Value(Has(connection))))
      ensures forall k :: k in subscriberConnection <==>
                          old(k in subscriberConnection && subscriberConnection[k] != connection)
      ensures forall k :: k in subscriberConnection ==> subscriberConnection[k] == old(subscriberConnection)[k]
    {
      var found, key := Find(connection);
      if !found {
        return;
      }
      connection.Clear();
      subscriberConnection := subscriberConnection - {key};
    }

    /** The delayed task at place `i` of the connection's timers up to its test. */
    method TakeOffAction(connection: StaticSubscriberConnection, i: nat) returns (found: bool, key: string)
      requires i < |connection.timers|
      modifies connection`timers, connection`actions
      ensures found == Has(connection)
      ensures found ==> key in subscriberConnection && subscriberConnection[key] == connection
      ensures connection.Value(found) == TakeOff(old(connection.Value(Has(connection))), i)
    {
      var action := connection.timers[i].action;
      connection.timers := connection.timers[..i] + connection.timers[i + 1..];
      found, key := Find(connection);
      if found {
        connection.RemoveEvent(action);
      }
    }

    /** The whole delayed task, with nothing running in between. */
    method DisconnectAbility(connection: StaticSubscriberConnection, i: nat)
      requires Valid() && i < |connection.timers|
      modifies this, connection
      ensures Valid()
      ensures connection.Value(Has(connection)) == Fire(old(connection.Value(Has(connection))), i)
      ensures forall k :: old(k in subscriberConnection && subscriberConnection[k] != connection) ==>
                k in subscriberConnection && subscriberConnection[k] == old(subscriberConnection)[k]
      ensures forall k :: k in subscriberConnection ==> old(k in subscriberConnection)
    {
      var found, key := TakeOffAction(connection, i);
      if !found {
        return;
      }
      if connection.actions != [] {
        return;
      }
      connection.Clear();
      subscriberConnection := subscriberConnection - {key};
    }
  }
}
