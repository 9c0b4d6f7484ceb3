/** MatchingSkills, CommonEventSubscribeInfo and CommonEventPublishInfo as objects that write themselves to a parcel
    and assign their fields from one, each proved against the wire forms. */
module ParcelObjects {
  import opened Lists
  import opened Subscribers
  import opened SubscriberFilter
  import opened Parcels

  class Parcel {
    var tokens: seq<Token>

    constructor ()
      ensures tokens == []
    {
      tokens := [];
    }

    method Write(t: Token)
      modifies this
      ensures tokens == old(tokens) + [t]
    {
      tokens := tokens + [t];
    }

    method PutString16Vector(wides: seq<Wide>)
      modifies this
      ensures tokens == old(tokens) + WriteString16Vector(wides)
    {
      Write(Int32(|wides|));
      for i := 0 to |wides|
        invariant tokens == old(tokens) + [Int32(|wides|)] + WideTokens(wides)[..i]
      {
        Write(Str16(wides[i]));
      }
      assert WideTokens(wides)[..|wides|] == WideTokens(wides);
    }

    method PutInt32Vector(ns: seq<int>)
      modifies this
      ensures tokens == old(tokens) + WriteInt32Vector(ns)
    {
      Write(Int32(|ns|));
      for i := 0 to |ns|
        invariant tokens == old(tokens) + [Int32(|ns|)] + IntTokens(ns)[..i]
      {
        Write(Int32(ns[i]));
      }
      assert IntTokens(ns)[..|ns|] == IntTokens(ns);
    }

    method TakeInt32() returns (n: int)
      modifies this
      ensures (n, tokens) == Int32Or0(old(tokens))
    {
      n, tokens := Int32Or0(tokens).0, Int32Or0(tokens).1;
    }

    method TakeUInt32() returns (n: int)
      modifies this
      ensures (n, tokens) == UInt32Or0(old(tokens))
    {
      n, tokens := UInt32Or0(tokens).0, UInt32Or0(tokens).1;
    }

    method TakeFlag() returns (on: bool)
      modifies this
      ensures (on, tokens) == FlagOrFalse(old(tokens))
    {
      on, tokens := FlagOrFalse(tokens).0, FlagOrFalse(tokens).1;
    }

    method TakeString16() returns (wide: Wide)
      modifies this
      ensures (wide, tokens) == Str16OrEmpty(old(tokens))
    {
      wide, tokens := Str16OrEmpty(tokens).0, Str16OrEmpty(tokens).1;
    }

    method TakeString() returns (text: string)
      modifies this
      ensures (text, tokens) == Str8OrEmpty(old(tokens))
    {
      text, tokens := Str8OrEmpty(tokens).0, Str8OrEmpty(tokens).1;
    }

    /** A read that reports whether it succeeded; after a failure the parcel is not used again. */
    method TryInt32() returns (ok: bool, n: int)
      modifies this
      ensures ok <==> ReadInt32(old(tokens)).Read?
      ensures ok ==> Read(n, tokens) == ReadInt32(old(tokens))
    {
      ok, n := ReadInt32(tokens).Read?, 0;
      if ok {
        n := TakeInt32();
      }
    }

    method TryString16Vector() returns (ok: bool, wides: seq<Wide>)
      modifies this
      ensures ok <==> ReadString16Vector(old(tokens)).Read?
      ensures ok ==> Read(wides, tokens) == ReadString16Vector(old(tokens))
    {
      var reading := ReadString16Vector(tokens);
      ok, wides := reading.Read?, [];
      if ok {
        wides, tokens := reading.value, reading.rest;
      }
    }

    method TryInt32Vector() returns (ok: bool, ns: seq<int>)
      modifies this
      ensures ok <==> ReadInt32Vector(old(tokens)).Read?
      ensures ok ==> Read(ns, tokens) == ReadInt32Vector(old(tokens))
    {
      var reading := ReadInt32Vector(tokens);
      ok, ns := reading.Read?, [];
      if ok {
        ns, tokens := reading.value, reading.rest;
      }
    }
  }

  method Widened(codec: Codec, s: seq<string>) returns (wides: seq<Wide>)
    ensures wides == WidenAll(codec, s)
  {
    wides := [];
    for i := 0 to |s|
      invariant wides == WidenAll(codec, s)[..i]
    {
      wides := wides + [codec.widen(s[i])];
    }
  }

  method Narrowed(codec: Codec, wides: seq<Wide>) returns (s: seq<string>)
    ensures s == NarrowAll(codec, wides)
  {
    s := [];
    for i := 0 to |wides|
      invariant s == NarrowAll(codec, wides)[..i]
    {
      s := s + [codec.narrow(wides[i])];
    }
  }

  lemma Joined(before: seq<Token>, a: seq<Token>, b: seq<Token>, c: seq<Token>, d: seq<Token>)
    ensures before + a + b + c + d == before + (a + b + c + d)
    ensures d == [] ==> before + a + b + c == before + (a + b + c)
  {
    if d == [] {
      assert before + a + b + c + d == before + a + b + c;
      assert a + b + c + d == a + b + c;
    }
  }

  class MatchingSkills {
    var entities: seq<string>
    var events: seq<string>
    var schemes: seq<string>

    function Value(): Skills
      reads this
    {
      Skills(entities, events, schemes)
    }

    constructor ()
      ensures Value() == Skills([], [], [])
    {
      entities, events, schemes := [], [], [];
    }

    /** Adding keeps the list free of duplicates, which reading from a parcel does not check. */
    method AddEvent(event: string)
      modifies this`events
      ensures event in events && forall e :: e in events <==> e in old(events) || e == event
      ensures NoDuplicates(old(events)) ==> NoDuplicates(events)
      ensures old(events) <= events
    {
      if event !in events {
        events := events + [event];
      }
    }

    /** Removing undoes adding. */
    method RemoveEvent(event: string)
      modifies this`events
      ensures events == Erase(old(events), event)
      ensures NoDuplicates(old(events)) ==>
                NoDuplicates(events) && forall e :: e in events <==> e in old(events) && e != event
    {
      for i := 0 to |events|
        invariant events == old(events) && event !in events[..i]
      {
        if events[i] == event {
          EraseAt(events, i);
          ErasedMembers(events, event);
          events := events[..i] + events[i + 1..];
          return;
        }
      }
      EraseAbsent(events, event);
      ErasedMembers(events, event);
    }

    method WriteVector(wides: seq<Wide>, parcel: Parcel)
      modifies parcel
      ensures parcel.tokens == old(parcel.tokens) + WriteVectorInfo(wides)
    {
      if wides == [] {
        parcel.Write(Int32(VALUE_NULL));
      } else {
        parcel.Write(Int32(VALUE_OBJECT));
        parcel.PutString16Vector(wides);
      }
    }

    method Marshalling(codec: Codec, parcel: Parcel)
      modifies parcel
      ensures parcel.tokens == old(parcel.tokens) + WriteSkills(codec, Value())
    {
      ghost var before := parcel.tokens;
      var wides := Widened(codec, entities);
      WriteVector(wides, parcel);
      wides := Widened(codec, events);
      WriteVector(wides, parcel);
      wides := Widened(codec, schemes);
      WriteVector(wides, parcel);
      Joined(before, WriteVectorInfo(WidenAll(codec, entities)), WriteVectorInfo(WidenAll(codec, events)),
             WriteVectorInfo(WidenAll(codec, schemes)), []);
    }

    method ReadVector(parcel: Parcel) returns (ok: bool, wides: seq<Wide>)
      modifies parcel
      ensures ok <==> ReadVectorInfo(old(parcel.tokens)).Read?
      ensures ok ==> Read(wides, parcel.tokens) == ReadVectorInfo(old(parcel.tokens))
    {
      wides := [];
      var marker;
      ok, marker := parcel.TryInt32();
      if ok && marker == VALUE_OBJECT {
        ok, wides := parcel.TryString16Vector();
      }
    }

    method ReadFromParcel(codec: Codec, parcel: Parcel) returns (ok: bool)
      modifies this, parcel
      ensures ok <==> ReadSkills(codec, old(parcel.tokens)).Read?
      ensures ok ==> Read(Value(), parcel.tokens) == ReadSkills(codec, old(parcel.tokens))
      ensures Value() == Assigned(old(Value()), ListsRead(codec, old(parcel.tokens), 3))
    {
      ReadsAllLists(codec, parcel.tokens, Value());
      var wides;
      ok, wides := ReadVector(parcel);
      if !ok {
        return;
      }
      entities := Narrowed(codec, wides);
      ok, wides := ReadVector(parcel);
      if !ok {
        return;
      }
      events := Narrowed(codec, wides);
      ok, wides := ReadVector(parcel);
      if !ok {
        return;
      }
      schemes := Narrowed(codec, wides);
    }
  }

  lemma ErasedMembers(s: seq<string>, x: string)
    ensures NoDuplicates(s) ==> NoDuplicates(Erase(s, x)) && forall e :: e in Erase(s, x) <==> e in s && e != x
  {
    if NoDuplicates(s) {
      EraseMembers(s, x, x);
      forall e ensures (e in Erase(s, x) <==> e in s && e != x) {
        EraseMembers(s, x, e);
      }
    }
  }

  /** The thread mode of a subscription that names none: an asynchronous thread. */
  const ASYNC := 2

  class CommonEventSubscribeInfo {
    var permission: string
    var priority: int
    var userId: int
    var threadMode: int
    var deviceId: string
    var matchingSkills: MatchingSkills
    var publisherBundleName: string
    var publisherUid: int

    function Value(): SubscribeInfo
      reads this, matchingSkills
    {
      SubscribeInfo(permission, priority, userId, threadMode, deviceId, matchingSkills.Value(), publisherBundleName,
                    publisherUid)
    }

    constructor ()
      ensures Value() == SubscribeInfo("", 0, UNDEFINED_USER, ASYNC, "", Skills([], [], []), "", 0)
      ensures fresh(matchingSkills)
    {
      permission, priority, userId, threadMode, deviceId := "", 0, UNDEFINED_USER, ASYNC, "";
      publisherBundleName, publisherUid := "", 0;
      matchingSkills := new MatchingSkills();
    }

    method Marshalling(codec: Codec, parcel: Parcel)
      modifies parcel
      ensures parcel.tokens == old(parcel.tokens) + WriteSubscribeInfo(codec, Value())
    {
      ghost var before := parcel.tokens;
      WriteFirst(codec, parcel);
      parcel.Write(Int32(1));
      matchingSkills.Marshalling(codec, parcel);
      WriteLast(parcel);
      Joined(before, WriteHead(codec, Value()), [Int32(1)], WriteSkills(codec, matchingSkills.Value()),
             [Str8(publisherBundleName), Int32(publisherUid)]);
    }

    method WriteLast(parcel: Parcel)
      modifies parcel
      ensures parcel.tokens == old(parcel.tokens) + [Str8(publisherBundleName), Int32(publisherUid)]
    {
      parcel.Write(Str8(publisherBundleName));
      parcel.Write(Int32(publisherUid));
    }

    method WriteFirst(codec: Codec, parcel: Parcel)
      modifies parcel
      ensures parcel.tokens == old(parcel.tokens) + WriteHead(codec, Value())
    {
      parcel.Write(Str16(codec.widen(permission)));
      parcel.Write(Int32(priority));
      parcel.Write(Int32(userId));
      parcel.Write(UInt32(threadMode));
      parcel.Write(Str16(codec.widen(deviceId)));
    }

    method ReadFirst(codec: Codec, parcel: Parcel)
      modifies this`permission, this`priority, this`userId, this`threadMode, this`deviceId, parcel
      ensures var (head, rest) := ReadHead(codec, old(parcel.tokens));
              && parcel.tokens == rest
              && permission == head.permission && priority == head.priority && userId == head.userId
              && threadMode == head.threadMode && deviceId == head.deviceId
    {
      var wide := parcel.TakeString16();
      permission := codec.narrow(wide);
      priority := parcel.TakeInt32();
      userId := parcel.TakeInt32();
      threadMode := parcel.TakeUInt32();
      wide := parcel.TakeString16();
      deviceId := codec.narrow(wide);
    }

    method ReadFromParcel(codec: Codec, parcel: Parcel) returns (ok: bool)
      modifies this, parcel
      ensures ok <==> ReadSubscribeInfo(codec, old(parcel.tokens)).Read?
      ensures ok ==> Read(Value(), parcel.tokens) == ReadSubscribeInfo(codec, old(parcel.tokens))
      ensures !ok ==>
                var before, head := old(Value()), ReadHead(codec, old(parcel.tokens)).0;
                Value() == head.(skills := before.skills, publisherBundleName := before.publisherBundleName,
                                 publisherUid := before.publisherUid)
    {
      ReadFirst(codec, parcel);
      var present := parcel.TakeInt32();
      if present == 0 {
        return false;
      }
      var skills := new MatchingSkills();
      ok := skills.ReadFromParcel(codec, parcel);
      if !ok {
        return;
      }
      matchingSkills := skills;
      publisherBundleName := parcel.TakeString();
      publisherUid := parcel.TakeInt32();
    }
  }

  class CommonEventPublishInfo {
    var sticky: bool
    var ordered: bool
    var bundleName: string
    var subscriberPermissions: seq<string>
    var subscriberUids: seq<int>
    var subscriberType: int
    var rule: Rule
    var maximumVersion: int

    const SUBSCRIBER_UIDS_MAX_NUM := 3

    function Value(): PublishInfo
      reads this
    {
      PublishInfo(subscriberPermissions, ordered, sticky, bundleName, subscriberUids, subscriberType, rule,
                  maximumVersion)
    }

    /** A new publication has no filter. */
    constructor ()
      ensures Value() == PublishInfo([], false, false, "", [], UNINITIALIZED_SUBSCRIBER_TYPE, AND, DEFAULT_VERSION)
      ensures GetFilterSettings(Value()) == 0
    {
      sticky, ordered, bundleName, subscriberPermissions, subscriberUids := false, false, "", [], [];
      subscriberType, rule, maximumVersion := UNINITIALIZED_SUBSCRIBER_TYPE, AND, DEFAULT_VERSION;
    }

    /** Only the first three user ids are kept. */
    method SetSubscriberUid(uids: seq<int>)
      modifies this`subscriberUids
      ensures subscriberUids == if |uids| > SUBSCRIBER_UIDS_MAX_NUM then uids[..SUBSCRIBER_UIDS_MAX_NUM] else uids
    {
      if |uids| > SUBSCRIBER_UIDS_MAX_NUM {
        subscriberUids := uids[..SUBSCRIBER_UIDS_MAX_NUM];
        return;
      }
      subscriberUids := uids;
    }

    /** Setting a type always requests the criterion, and one out of range means every subscriber. */
    method SetSubscriberType(kind: int)
      modifies this`subscriberType
      ensures subscriberType == (if kind == SYSTEM_SUBSCRIBER_TYPE then kind else ALL_SUBSCRIBER_TYPE)
      ensures Requested(Value(), Type)
    {
      if kind != ALL_SUBSCRIBER_TYPE && kind != SYSTEM_SUBSCRIBER_TYPE {
        subscriberType := ALL_SUBSCRIBER_TYPE;
        return;
      }
      subscriberType := kind;
    }

    method Marshalling(codec: Codec, parcel: Parcel)
      modifies parcel
      ensures parcel.tokens == old(parcel.tokens) + WritePublishInfo(codec, Value())
    {
      var wides := Widened(codec, subscriberPermissions);
      parcel.PutString16Vector(wides);
      parcel.Write(Flag(ordered));
      parcel.Write(Flag(sticky));
      parcel.Write(Str16(codec.widen(bundleName)));
      parcel.PutInt32Vector(subscriberUids);
      parcel.Write(Int32(subscriberType));
      parcel.Write(Int32(RuleNumber(rule)));
      parcel.Write(Int32(maximumVersion));
    }

    method ReadFromParcel(codec: Codec, parcel: Parcel) returns (ok: bool)
      modifies this, parcel
      ensures ok <==> ReadPublishInfo(codec, old(parcel.tokens)).Read?
      ensures ok ==> Read(Value(), parcel.tokens) == ReadPublishInfo(codec, old(parcel.tokens))
      ensures !ok ==> Value() == PublishLeft(codec, old(Value()), old(parcel.tokens), subscriberUids)
    {
      var wides;
      ok, wides := parcel.TryString16Vector();
      if !ok {
        return;
      }
      subscriberPermissions := Narrowed(codec, wides);
      ordered := parcel.TakeFlag();
      sticky := parcel.TakeFlag();
      var wide := parcel.TakeString16();
      bundleName := codec.narrow(wide);
      ok := ReadFilter(parcel);
    }

    /** The user ids and the numbers after them. */
    method ReadFilter(parcel: Parcel) returns (ok: bool)
      modifies this`subscriberUids, this`subscriberType, this`rule, this`maximumVersion, parcel
      ensures ok <==> Parcels.ReadFilter(old(Value()), old(parcel.tokens)).Read?
      ensures ok ==> Read(Value(), parcel.tokens) == Parcels.ReadFilter(old(Value()), old(parcel.tokens))
      ensures !ok ==> Value() == FilterLeft(old(Value()), old(parcel.tokens), subscriberUids)
    {
      ok, subscriberUids := parcel.TryInt32Vector();
      if !ok {
        return;
      }
      subscriberType := parcel.TakeInt32();
      var number := parcel.TakeInt32();
      if number < RuleNumber(AND) || number > RuleNumber(OR) {
        return false;
      }
      rule := if number == RuleNumber(AND) then AND else OR;
      maximumVersion := parcel.TakeInt32();
    }
  }

  /** A written object is read back by another one, whatever was in the parcel behind it. */
  method TransferSubscribeInfo(codec: Codec, from: CommonEventSubscribeInfo, into: CommonEventSubscribeInfo,
                               rest: seq<Token>)
    returns (parcel: Parcel, ok: bool)
    requires into != from
    modifies into
    ensures ok && into.Value() == ConvertedSubscribeInfo(codec, old(from.Value())) && parcel.tokens == rest
  {
    parcel := new Parcel();
    from.Marshalling(codec, parcel);
    assert parcel.tokens == WriteSubscribeInfo(codec, from.Value());
    parcel.tokens := parcel.tokens + rest;
    SubscribeInfoRoundTrip(codec, from.Value(), rest);
    ok := into.ReadFromParcel(codec, parcel);
  }
}
