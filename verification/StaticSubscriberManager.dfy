/** StaticSubscriberManager's two tables, changed in place: the static subscribers of each event, and the events
    bundles have switched off. */
module StaticSubscriberManager {
  import opened Lists
  import opened DisableTable

  datatype Info = Info(name: string, bundleName: string, userId: int, permission: string)

  type Valid = map<string, seq<Info>>

  function Lookup(valid: Valid, event: string): seq<Info> {
    if event in valid then valid[event] else []
  }

  predicate SameSubscriber(a: Info, b: Info) {
    a.name == b.name && a.bundleName == b.bundleName && a.userId == b.userId
  }

  /** AddToValidSubscribers. */
  function Add(valid: Valid, event: string, info: Info): Valid {
    if exists i :: 0 <= i < |Lookup(valid, event)| && SameSubscriber(Lookup(valid, event)[i], info) then valid
    else valid[event := Lookup(valid, event) + [info]]
  }

  predicate Belongs(info: Info, bundleName: string, userId: int) {
    info.bundleName == bundleName && info.userId == userId
  }

  /** A list without a bundle's subscribers. */
  function Remaining(list: seq<Info>, bundleName: string, userId: int): seq<Info> {
    if list == [] then []
    else (if Belongs(list[0], bundleName, userId) then [] else [list[0]]) + Remaining(list[1..], bundleName, userId)
  }

  /** All lists without a bundle's subscribers; lists that become empty are dropped. */
  function Purge(valid: Valid, bundleName: string, userId: int): Valid {
    map event | event in valid && Remaining(valid[event], bundleName, userId) != [] ::
      Remaining(valid[event], bundleName, userId)
  }

  /** No event lists a subscriber twice. */
  ghost predicate NoTwins(valid: Valid) {
    forall event, i, j :: event in valid && 0 <= i < j < |valid[event]| ==>
      !SameSubscriber(valid[event][i], valid[event][j])
  }

  lemma AddKeepsNoTwins(valid: Valid, event: string, info: Info)
    requires NoTwins(valid)
    ensures NoTwins(Add(valid, event, info))
    ensures exists i :: 0 <= i < |Lookup(Add(valid, event, info), event)|
                        && SameSubscriber(Lookup(Add(valid, event, info), event)[i], info)
  {
    var list := Lookup(valid, event);
    if !exists i :: 0 <= i < |list| && SameSubscriber(list[i], info) {
      assert Lookup(Add(valid, event, info), event)[|list|] == info;
    }
  }

  lemma {:induction false} RemainingAt(list: seq<Info>, bundleName: string, userId: int, info: Info)
    ensures multiset(Remaining(list, bundleName, userId))[info] ==
              if Belongs(info, bundleName, userId) then 0 else multiset(list)[info]
  {
    if list != [] {
      assert list == [list[0]] + list[1..];
      RemainingAt(list[1..], bundleName, userId, info);
    }
  }

  lemma {:induction false} RemainingIsPart(list: seq<Info>, bundleName: string, userId: int, info: Info)
    requires info in Remaining(list, bundleName, userId)
    ensures info in list
  {
    if info != list[0] {
      RemainingIsPart(list[1..], bundleName, userId, info);
    }
  }

  lemma {:induction false} RemainingNoTwins(list: seq<Info>, bundleName: string, userId: int)
    requires forall i, j :: 0 <= i < j < |list| ==> !SameSubscriber(list[i], list[j])
    ensures var rest := Remaining(list, bundleName, userId);
            forall i, j :: 0 <= i < j < |rest| ==> !SameSubscriber(rest[i], rest[j])
  {
    if list != [] {
      RemainingNoTwins(list[1..], bundleName, userId);
      var rest := Remaining(list[1..], bundleName, userId);
      forall i | 0 <= i < |rest| ensures !SameSubscriber(list[0], rest[i]) {
        RemainingIsPart(list[1..], bundleName, userId, rest[i]);
        var j :| 0 <= j < |list[1..]| && list[1..][j] == rest[i];
        assert list[j + 1] == rest[i];
      }
      if Belongs(list[0], bundleName, userId) {
        assert Remaining(list, bundleName, userId) == rest;
      } else {
        assert Remaining(list, bundleName, userId) == [list[0]] + rest;
      }
    }
  }

  /** Removing a bundle takes exactly its subscribers, of that user, out of every event's list, leaves no empty
      list, and no subscriber twice. */
  lemma PurgeExactly(valid: Valid, bundleName: string, userId: int, event: string, info: Info)
    requires NoTwins(valid)
    ensures var purged := Purge(valid, bundleName, userId);
            && multiset(Lookup(purged, event))[info] ==
                 (if Belongs(info, bundleName, userId) then 0 else multiset(Lookup(valid, event))[info])
            && (event in purged ==> purged[event] != [])
            && NoTwins(purged)
  {
    RemainingAt(Lookup(valid, event), bundleName, userId, info);
    forall e | e in valid
      ensures var rest := Remaining(valid[e], bundleName, userId);
              forall i, j :: 0 <= i < j < |rest| ==> !SameSubscriber(rest[i], rest[j])
    {
      RemainingNoTwins(valid[e], bundleName, userId);
    }
    if event in valid && event !in Purge(valid, bundleName, userId) {
      assert Remaining(valid[event], bundleName, userId) == [];
    }
  }

  /** The purge of `before` with these events still to do. */
  ghost predicate PurgedBut(valid: Valid, before: Valid, events: set<string>, bundleName: string, userId: int) {
    && events <= before.Keys && valid.Keys <= before.Keys
    && (forall e :: e in events ==> e in valid && valid[e] == before[e])
    && (forall e :: e in before && e !in events ==>
          var rest := Remaining(before[e], bundleName, userId);
          if rest == [] then e !in valid else e in valid && valid[e] == rest)
  }

  lemma PurgedOne(valid: Valid, before: Valid, events: set<string>, bundleName: string, userId: int, event: string)
    requires PurgedBut(valid, before, events, bundleName, userId) && event in events
    ensures var rest := Remaining(valid[event], bundleName, userId);
            var valid1 := if rest == [] then valid - {event} else valid[event := rest];
            PurgedBut(valid1, before, events - {event}, bundleName, userId)
  {
  }

  /** Looking at one more subscriber: it is taken out, or stays. */
  lemma RemainingFrom(rest: seq<Info>, sub: nat, bundleName: string, userId: int)
    requires sub < |rest|
    ensures var shorter := rest[..sub] + rest[sub + 1..];
      rest[..sub] + Remaining(rest[sub..], bundleName, userId) ==
        if Belongs(rest[sub], bundleName, userId) then
          shorter[..sub] + Remaining(shorter[sub..], bundleName, userId)
        else rest[..sub + 1] + Remaining(rest[sub + 1..], bundleName, userId)
  {
    var shorter := rest[..sub] + rest[sub + 1..];
    assert shorter[..sub] == rest[..sub] && shorter[sub..] == rest[sub + 1..];
    assert rest[sub..][1..] == rest[sub + 1..];
  }

  class Manager {
    var validSubscribers: Valid
    var disableEvents: Table

    constructor ()
      ensures validSubscribers == map[] && disableEvents == map[]
    {
      validSubscribers, disableEvents := map[], map[];
    }

    method IsDisableEvent(bundleName: string, event: string, userId: int) returns (disabled: bool)
      ensures disabled <==> Disabled(disableEvents, Key(userId, bundleName), event)
    {
      var key := Key(userId, bundleName);
      if key !in disableEvents {
        return false;
      }
      return event in disableEvents[key];
    }

    method UpdateDisableEvents(bundleName: string, events: seq<string>, enable: bool, userId: int)
      modifies this`disableEvents
      ensures disableEvents == Apply(old(disableEvents), Setting(bundleName, events, enable, userId))
    {
      var key := Key(userId, bundleName);
      if key !in disableEvents {
        if !enable {
          disableEvents := disableEvents[key := events];
        }
        return;
      }
      var currentEvents := disableEvents[key];
      for i := 0 to |events|
        invariant disableEvents == old(disableEvents)
        invariant UpdateAll(currentEvents, events[i..], enable) == UpdateAll(disableEvents[key], events, enable)
      {
        var event := events[i];
        assert events[i..][0] == event && events[i..][1..] == events[i + 1..];
        if enable {
          if event in currentEvents {
            currentEvents := EraseEvent(currentEvents, event);
          } else {
            EraseAbsent(currentEvents, event);
          }
        } else if event !in currentEvents {
          currentEvents := currentEvents + [event];
        }
      }
      assert events[|events|..] == [];
      if currentEvents == [] {
        disableEvents := disableEvents - {key};
      } else {
        disableEvents := disableEvents[key := currentEvents];
      }
    }

    /** Finds an event in a list and erases it. */
    static method EraseEvent(list: seq<string>, event: string) returns (rest: seq<string>)
      requires event in list
      ensures rest == Erase(list, event)
    {
      var i := 0;
      while list[i] != event
        invariant 0 <= i < |list| && event !in list[..i]
        decreases |list| - i
      {
        assert list == list[..i + 1] + list[i + 1..];
        i := i + 1;
      }
      EraseAt(list, i);
      rest := list[..i] + list[i + 1..];
    }

    method AddToValidSubscribers(eventName: string, subscriber: Info)
      modifies this`validSubscribers
      ensures validSubscribers == Add(old(validSubscribers), eventName, subscriber)
    {
      if eventName in validSubscribers {
        var list := validSubscribers[eventName];
        for i := 0 to |list|
          invariant forall j :: 0 <= j < i ==> !SameSubscriber(list[j], subscriber)
        {
          if SameSubscriber(list[i], subscriber) {
            return;
          }
        }
      }
      validSubscribers := validSubscribers[eventName := Lookup(validSubscribers, eventName) + [subscriber]];
    }

    /** One event's list without the bundle's subscribers, erased one by one. */
    static method EraseBundle(list: seq<Info>, bundleName: string, userId: int) returns (rest: seq<Info>)
      ensures rest == Remaining(list, bundleName, userId)
    {
      rest := list;
      var sub := 0;
      while sub < |rest|
        invariant 0 <= sub <= |rest|
        invariant rest[..sub] + Remaining(rest[sub..], bundleName, userId) == Remaining(list, bundleName, userId)
        decreases |rest| - sub
      {
        RemainingFrom(rest, sub, bundleName, userId);
        if Belongs(rest[sub], bundleName, userId) {
          rest := rest[..sub] + rest[sub + 1..];
        } else {
          sub := sub + 1;
        }
      }
      assert rest[..sub] == rest && rest[sub..] == [];
    }

    /** Takes a bundle's subscribers out of every list, and its entry out of the disable table. */
    method RemoveSubscriberWithBundleName(bundleName: string, userId: int)
      modifies this
      ensures validSubscribers == Purge(old(validSubscribers), bundleName, userId)
      ensures disableEvents == Apply(old(disableEvents), Removal(bundleName, userId))
    {
      var events := validSubscribers.Keys;
      ghost var before := validSubscribers;
      while events != {}
        invariant disableEvents == old(disableEvents)
        invariant PurgedBut(validSubscribers, before, events, bundleName, userId)
        decreases |events|
      {
        var event :| event in events;
        PurgedOne(validSubscribers, before, events, bundleName, userId, event);
        var rest := EraseBundle(validSubscribers[event], bundleName, userId);
        if rest == [] {
          validSubscribers := validSubscribers - {event};
        } else {
          validSubscribers := validSubscribers[event := rest];
        }
        events := events - {event};
      }
      var key := Key(userId, bundleName);
      if key !in disableEvents {
        return;
      }
      disableEvents := disableEvents - {key};
    }
  }
}
