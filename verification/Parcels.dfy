/** The wire forms of subscriptions and publications, over a parcel of typed values. What is read back after a
    write, with anything following it, is the object with each string converted to 16-bit units and back. */
module Parcels {
  import opened Wrappers
  import opened Subscribers
  import opened SubscriberFilter

  const VALUE_NULL := -1
  const VALUE_OBJECT := 1

  /** A string of 16-bit units. */
  datatype Wide = Wide(units: seq<bv16>)

  datatype Token = Flag(on: bool) | Int32(n: int) | UInt32(u: int) | Str16(wide: Wide) | Str8(text: string)

  /** Str8ToStr16 and Str16ToStr8. */
  datatype Codec = Codec(widen: string -> Wide, narrow: Wide -> string)

  /** The value read and what follows it in the parcel, or a failed read. */
  datatype Reading<T> = Fail | Read(value: T, rest: seq<Token>)

  // ---- Reads of the parcel itself; those that cannot report failure yield a default

  function ReadInt32(ts: seq<Token>): Reading<int> {
    if ts != [] && ts[0].Int32? then Read(ts[0].n, ts[1..]) else Fail
  }

  function Int32Or0(ts: seq<Token>): (int, seq<Token>) {
    if ts != [] && ts[0].Int32? then (ts[0].n, ts[1..]) else (0, ts)
  }

  function UInt32Or0(ts: seq<Token>): (int, seq<Token>) {
    if ts != [] && ts[0].UInt32? then (ts[0].u, ts[1..]) else (0, ts)
  }

  function FlagOrFalse(ts: seq<Token>): (bool, seq<Token>) {
    if ts != [] && ts[0].Flag? then (ts[0].on, ts[1..]) else (false, ts)
  }

  function Str16OrEmpty(ts: seq<Token>): (Wide, seq<Token>) {
    if ts != [] && ts[0].Str16? then (ts[0].wide, ts[1..]) else (Wide([]), ts)
  }

  function Str8OrEmpty(ts: seq<Token>): (string, seq<Token>) {
    if ts != [] && ts[0].Str8? then (ts[0].text, ts[1..]) else ("", ts)
  }

  function ReadWides(ts: seq<Token>, n: nat): Reading<seq<Wide>> {
    if n == 0 then Read([], ts)
    else if ts == [] || !ts[0].Str16? then Fail
    else
      match ReadWides(ts[1..], n - 1)
      case Fail => Fail
      case Read(wides, rest) => Read([ts[0].wide] + wides, rest)
  }

  function ReadString16Vector(ts: seq<Token>): Reading<seq<Wide>> {
    match ReadInt32(ts)
    case Fail => Fail
    case Read(n, rest) => if 0 <= n <= |rest| then ReadWides(rest, n) else Fail
  }

  function ReadInts(ts: seq<Token>, n: nat): Reading<seq<int>> {
    if n == 0 then Read([], ts)
    else if ts == [] || !ts[0].Int32? then Fail
    else
      match ReadInts(ts[1..], n - 1)
      case Fail => Fail
      case Read(ns, rest) => Read([ts[0].n] + ns, rest)
  }

  function ReadInt32Vector(ts: seq<Token>): Reading<seq<int>> {
    match ReadInt32(ts)
    case Fail => Fail
    case Read(n, rest) => if 0 <= n <= |rest| then ReadInts(rest, n) else Fail
  }

  // ---- Lists

  function WideTokens(wides: seq<Wide>): seq<Token> {
    seq(|wides|, i requires 0 <= i < |wides| => Str16(wides[i]))
  }

  function IntTokens(ns: seq<int>): seq<Token> {
    seq(|ns|, i requires 0 <= i < |ns| => Int32(ns[i]))
  }

  function WriteString16Vector(wides: seq<Wide>): seq<Token> {
    [Int32(|wides|)] + WideTokens(wides)
  }

  function WriteInt32Vector(ns: seq<int>): seq<Token> {
    [Int32(|ns|)] + IntTokens(ns)
  }

  function WidenAll(codec: Codec, s: seq<string>): seq<Wide> {
    seq(|s|, i requires 0 <= i < |s| => codec.widen(s[i]))
  }

  function NarrowAll(codec: Codec, wides: seq<Wide>): seq<string> {
    seq(|wides|, i requires 0 <= i < |wides| => codec.narrow(wides[i]))
  }

  lemma {:induction false} WidesRoundTrip(wides: seq<Wide>, rest: seq<Token>)
    ensures ReadWides(WideTokens(wides) + rest, |wides|) == Read(wides, rest)
  {
    if wides == [] {
      assert WideTokens(wides) + rest == rest;
    } else {
      WidesRoundTrip(wides[1..], rest);
      assert (WideTokens(wides) + rest)[1..] == WideTokens(wides[1..]) + rest;
      assert [wides[0]] + wides[1..] == wides;
    }
  }

  lemma {:induction false} IntsRoundTrip(ns: seq<int>, rest: seq<Token>)
    ensures ReadInts(IntTokens(ns) + rest, |ns|) == Read(ns, rest)
  {
    if ns == [] {
      assert IntTokens(ns) + rest == rest;
    } else {
      IntsRoundTrip(ns[1..], rest);
      assert (IntTokens(ns) + rest)[1..] == IntTokens(ns[1..]) + rest;
      assert [ns[0]] + ns[1..] == ns;
    }
  }

  lemma String16VectorRoundTrip(wides: seq<Wide>, rest: seq<Token>)
    ensures ReadString16Vector(WriteString16Vector(wides) + rest) == Read(wides, rest)
  {
    assert (WriteString16Vector(wides) + rest)[1..] == WideTokens(wides) + rest;
    WidesRoundTrip(wides, rest);
  }

  lemma Int32VectorRoundTrip(ns: seq<int>, rest: seq<Token>)
    ensures ReadInt32Vector(WriteInt32Vector(ns) + rest) == Read(ns, rest)
  {
    assert (WriteInt32Vector(ns) + rest)[1..] == IntTokens(ns) + rest;
    IntsRoundTrip(ns, rest);
  }

  // ---- MatchingSkills

  /** WriteVectorInfo: an empty list is one marker, any other a marker and the list. */
  function WriteVectorInfo(wides: seq<Wide>): seq<Token> {
    if wides == [] then [Int32(VALUE_NULL)] else [Int32(VALUE_OBJECT)] + WriteString16Vector(wides)
  }

  function ReadVectorInfo(ts: seq<Token>): Reading<seq<Wide>> {
    match ReadInt32(ts)
    case Fail => Fail
    case Read(marker, rest) => if marker == VALUE_OBJECT then ReadString16Vector(rest) else Read([], rest)
  }

  function WriteSkills(codec: Codec, s: Skills): seq<Token> {
    WriteVectorInfo(WidenAll(codec, s.entities))
    + WriteVectorInfo(WidenAll(codec, s.events))
    + WriteVectorInfo(WidenAll(codec, s.schemes))
  }

  function ReadSkills(codec: Codec, ts: seq<Token>): Reading<Skills> {
    match ReadVectorInfo(ts)
    case Fail => Fail
    case Read(entities, rest1) =>
      match ReadVectorInfo(rest1)
      case Fail => Fail
      case Read(events, rest2) =>
        match ReadVectorInfo(rest2)
        case Fail => Fail
        case Read(schemes, rest3) =>
          Read(Skills(NarrowAll(codec, entities), NarrowAll(codec, events), NarrowAll(codec, schemes)), rest3)
  }

  /** The lists read before the first failure, `n` at most. */
  function ListsRead(codec: Codec, ts: seq<Token>, n: nat): (lists: seq<seq<string>>)
    ensures |lists| <= n
    decreases n
  {
    if n == 0 then []
    else
      match ReadVectorInfo(ts)
      case Fail => []
      case Read(wides, rest) => [NarrowAll(codec, wides)] + ListsRead(codec, rest, n - 1)
  }

  /** Skills whose first fields have been replaced by these lists. */
  function Assigned(s: Skills, lists: seq<seq<string>>): Skills {
    Skills(if |lists| > 0 then lists[0] else s.entities,
           if |lists| > 1 then lists[1] else s.events,
           if |lists| > 2 then lists[2] else s.schemes)
  }

  /** A read of skills succeeds exactly if all three lists can be read, and then nothing is left of what was there. */
  lemma ReadsAllLists(codec: Codec, ts: seq<Token>, before: Skills)
    ensures ReadSkills(codec, ts).Read? <==> |ListsRead(codec, ts, 3)| == 3
    ensures ReadSkills(codec, ts).Read? ==> ReadSkills(codec, ts).value == Assigned(before, ListsRead(codec, ts, 3))
  {
    if ReadVectorInfo(ts).Read? {
      var rest := ReadVectorInfo(ts).rest;
      if ReadVectorInfo(rest).Read? {
        assert |ListsRead(codec, ReadVectorInfo(rest).rest, 1)| <= 1;
      }
    }
  }

  lemma VectorInfoRoundTrip(wides: seq<Wide>, rest: seq<Token>)
    ensures ReadVectorInfo(WriteVectorInfo(wides) + rest) == Read(wides, rest)
  {
    if wides == [] {
      assert ([Int32(VALUE_NULL)] + rest)[1..] == rest;
    } else {
      var list := WriteString16Vector(wides);
      assert [Int32(VALUE_OBJECT)] + list + rest == [Int32(VALUE_OBJECT)] + (list + rest);
      assert ([Int32(VALUE_OBJECT)] + (list + rest))[1..] == list + rest;
      String16VectorRoundTrip(wides, rest);
    }
  }

  // ---- What conversion does to an object

  function Converted(codec: Codec, s: string): string {
    codec.narrow(codec.widen(s))
  }

  function ConvertedAll(codec: Codec, s: seq<string>): seq<string> {
    seq(|s|, i requires 0 <= i < |s| => Converted(codec, s[i]))
  }

  function ConvertedSkills(codec: Codec, s: Skills): Skills {
    Skills(ConvertedAll(codec, s.entities), ConvertedAll(codec, s.events), ConvertedAll(codec, s.schemes))
  }

  predicate Survives(codec: Codec, s: string) {
    Converted(codec, s) == s
  }

  predicate AllSurvive(codec: Codec, s: seq<string>) {
    forall i :: 0 <= i < |s| ==> Survives(codec, s[i])
  }

  lemma SurvivesExactly(codec: Codec, s: seq<string>)
    ensures ConvertedAll(codec, s) == s <==> AllSurvive(codec, s)
  {
    if ConvertedAll(codec, s) == s {
      forall i | 0 <= i < |s| ensures Survives(codec, s[i]) {
        assert ConvertedAll(codec, s)[i] == s[i];
      }
    }
  }

  /** Skills read back what was written, whatever follows, with every string converted there and back. */
  lemma SkillsRoundTrip(codec: Codec, s: Skills, rest: seq<Token>)
    ensures ReadSkills(codec, WriteSkills(codec, s) + rest) == Read(ConvertedSkills(codec, s), rest)
  {
    var a, b, c := WidenAll(codec, s.entities), WidenAll(codec, s.events), WidenAll(codec, s.schemes);
    assert WriteSkills(codec, s) + rest == WriteVectorInfo(a) + (WriteVectorInfo(b) + (WriteVectorInfo(c) + rest));
    VectorInfoRoundTrip(a, WriteVectorInfo(b) + (WriteVectorInfo(c) + rest));
    VectorInfoRoundTrip(b, WriteVectorInfo(c) + rest);
    VectorInfoRoundTrip(c, rest);
    assert NarrowAll(codec, a) == ConvertedAll(codec, s.entities);
    assert NarrowAll(codec, b) == ConvertedAll(codec, s.events);
    assert NarrowAll(codec, c) == ConvertedAll(codec, s.schemes);
  }

  /** Skills survive the trip exactly when each of their strings survives conversion. */
  lemma SkillsSurviveExactly(codec: Codec, s: Skills, rest: seq<Token>)
    ensures ReadSkills(codec, WriteSkills(codec, s) + rest) == Read(s, rest) <==>
              AllSurvive(codec, s.entities) && AllSurvive(codec, s.events) && AllSurvive(codec, s.schemes)
  {
    SkillsRoundTrip(codec, s, rest);
    SurvivesExactly(codec, s.entities);
    SurvivesExactly(codec, s.events);
    SurvivesExactly(codec, s.schemes);
  }

  // ---- CommonEventSubscribeInfo

  /** The fields before the skills. */
  function WriteHead(codec: Codec, x: SubscribeInfo): seq<Token> {
    [Str16(codec.widen(x.permission)), Int32(x.priority), Int32(x.userId), UInt32(x.threadMode),
     Str16(codec.widen(x.deviceId))]
  }

  function WriteSubscribeInfo(codec: Codec, x: SubscribeInfo): seq<Token> {
    WriteHead(codec, x) + [Int32(1)] + WriteSkills(codec, x.skills)
    + [Str8(x.publisherBundleName), Int32(x.publisherUid)]
  }

  function ReadHead(codec: Codec, ts: seq<Token>): (SubscribeInfo, seq<Token>) {
    var (permission, ts1) := Str16OrEmpty(ts);
    var (priority, ts2) := Int32Or0(ts1);
    var (userId, ts3) := Int32Or0(ts2);
    var (threadMode, ts4) := UInt32Or0(ts3);
    var (deviceId, ts5) := Str16OrEmpty(ts4);
    (SubscribeInfo(codec.narrow(permission), priority, userId, threadMode, codec.narrow(deviceId),
                   Skills([], [], []), "", 0), ts5)
  }

  /** The skills, and the fields after them. */
  function ReadBody(codec: Codec, head: SubscribeInfo, ts: seq<Token>): Reading<SubscribeInfo> {
    var (present, ts1) := Int32Or0(ts);
    if present == 0 then Fail
    else
      match ReadSkills(codec, ts1)
      case Fail => Fail
      case Read(skills, ts2) =>
        var (publisherBundleName, ts3) := Str8OrEmpty(ts2);
        var (publisherUid, ts4) := Int32Or0(ts3);
        Read(head.(skills := skills, publisherBundleName := publisherBundleName, publisherUid := publisherUid), ts4)
  }

  function ReadSubscribeInfo(codec: Codec, ts: seq<Token>): Reading<SubscribeInfo> {
    var (head, rest) := ReadHead(codec, ts);
    ReadBody(codec, head, rest)
  }

  /** The publisher's bundle name travels as it is; the other strings are converted. */
  function ConvertedSubscribeInfo(codec: Codec, x: SubscribeInfo): SubscribeInfo {
    x.(permission := Converted(codec, x.permission), deviceId := Converted(codec, x.deviceId),
       skills := ConvertedSkills(codec, x.skills))
  }

  lemma HeadRoundTrip(codec: Codec, x: SubscribeInfo, rest: seq<Token>)
    ensures ReadHead(codec, WriteHead(codec, x) + rest) ==
              (ConvertedSubscribeInfo(codec, x).(skills := Skills([], [], []), publisherBundleName := "",
                                                 publisherUid := 0), rest)
  {
    var ts := WriteHead(codec, x) + rest;
    assert ts[1..][1..][1..][1..][1..] == ts[5..] == rest;
  }

  lemma Regroup(a: seq<Token>, t: Token, b: seq<Token>, c: seq<Token>, rest: seq<Token>)
    ensures a + [t] + b + c + rest == a + ([t] + (b + (c + rest)))
  {
  }

  lemma BodyRoundTrip(codec: Codec, head: SubscribeInfo, x: SubscribeInfo, rest: seq<Token>)
    ensures var last := [Str8(x.publisherBundleName), Int32(x.publisherUid)] + rest;
            var read := head.(skills := ConvertedSkills(codec, x.skills), publisherBundleName := x.publisherBundleName,
                              publisherUid := x.publisherUid);
            ReadBody(codec, head, [Int32(1)] + (WriteSkills(codec, x.skills) + last)) == Read(read, rest)
  {
    var last := [Str8(x.publisherBundleName), Int32(x.publisherUid)] + rest;
    assert ([Int32(1)] + (WriteSkills(codec, x.skills) + last))[1..] == WriteSkills(codec, x.skills) + last;
    SkillsRoundTrip(codec, x.skills, last);
    AfterSkills(codec, head, [Int32(1)] + (WriteSkills(codec, x.skills) + last), ConvertedSkills(codec, x.skills),
                x.publisherBundleName, x.publisherUid, rest);
  }

  /** The fields that follow the skills. */
  lemma AfterSkills(codec: Codec, head: SubscribeInfo, ts: seq<Token>, skills: Skills, name: string, uid: int,
                    rest: seq<Token>)
    requires ts != [] && ts[0] == Int32(1)
    requires ReadSkills(codec, ts[1..]) == Read(skills, [Str8(name), Int32(uid)] + rest)
    ensures ReadBody(codec, head, ts) ==
              Read(head.(skills := skills, publisherBundleName := name, publisherUid := uid), rest)
  {
    assert ([Str8(name), Int32(uid)] + rest)[1..][1..] == rest;
  }

  lemma SubscribeInfoRoundTrip(codec: Codec, x: SubscribeInfo, rest: seq<Token>)
    ensures ReadSubscribeInfo(codec, WriteSubscribeInfo(codec, x) + rest) ==
              Read(ConvertedSubscribeInfo(codec, x), rest)
  {
    var names := [Str8(x.publisherBundleName), Int32(x.publisherUid)];
    var body := [Int32(1)] + (WriteSkills(codec, x.skills) + (names + rest));
    Regroup(WriteHead(codec, x), Int32(1), WriteSkills(codec, x.skills), names, rest);
    HeadRoundTrip(codec, x, body);
    BodyRoundTrip(codec, ReadHead(codec, WriteHead(codec, x) + body).0, x, rest);
  }

  lemma SubscribeInfoSurvivesExactly(codec: Codec, x: SubscribeInfo, rest: seq<Token>)
    ensures ReadSubscribeInfo(codec, WriteSubscribeInfo(codec, x) + rest) == Read(x, rest) <==>
              && Survives(codec, x.permission) && Survives(codec, x.deviceId)
              && AllSurvive(codec, x.skills.entities) && AllSurvive(codec, x.skills.events)
              && AllSurvive(codec, x.skills.schemes)
  {
    SubscribeInfoRoundTrip(codec, x, rest);
    SurvivesExactly(codec, x.skills.entities);
    SurvivesExactly(codec, x.skills.events);
    SurvivesExactly(codec, x.skills.schemes);
  }

  // ---- CommonEventPublishInfo

  function RuleNumber(r: Rule): int {
    match r case AND => 1 case OR => 2
  }

  function WritePublishInfo(codec: Codec, x: PublishInfo): seq<Token> {
    WriteString16Vector(WidenAll(codec, x.permissions))
    + [Flag(x.ordered), Flag(x.sticky), Str16(codec.widen(x.bundleName))]
    + WriteInt32Vector(x.uids)
    + [Int32(x.subscriberType), Int32(RuleNumber(x.rule)), Int32(x.maximumVersion)]
  }

  /** The fields of the filter after the bundle name; a rule that is neither is refused. */
  function ReadFilter(head: PublishInfo, ts: seq<Token>): Reading<PublishInfo> {
    match ReadInt32Vector(ts)
    case Fail => Fail
    case Read(uids, ts1) =>
      var (subscriberType, ts2) := Int32Or0(ts1);
      var (rule, ts3) := Int32Or0(ts2);
      if rule < RuleNumber(AND) || rule > RuleNumber(OR) then Fail
      else
        var (maximumVersion, ts4) := Int32Or0(ts3);
        Read(head.(uids := uids, subscriberType := subscriberType, rule := if rule == RuleNumber(AND) then AND else OR,
                   maximumVersion := maximumVersion), ts4)
  }

  function ReadPublishInfo(codec: Codec, ts: seq<Token>): Reading<PublishInfo> {
    match ReadString16Vector(ts)
    case Fail => Fail
    case Read(permissions, ts1) =>
      var (ordered, ts2) := FlagOrFalse(ts1);
      var (sticky, ts3) := FlagOrFalse(ts2);
      var (bundleName, ts4) := Str16OrEmpty(ts3);
      ReadFilter(PublishInfo(NarrowAll(codec, permissions), ordered, sticky, codec.narrow(bundleName), [],
                             UNINITIALIZED_SUBSCRIBER_TYPE, AND, DEFAULT_VERSION), ts4)
  }

  /** A publication after a read of its filter that failed; `leftover` is what the failed read of a list left. */
  function FilterLeft(before: PublishInfo, ts: seq<Token>, leftover: seq<int>): PublishInfo {
    match ReadInt32Vector(ts)
    case Fail => before.(uids := leftover)
    case Read(uids, ts1) => before.(uids := uids, subscriberType := Int32Or0(ts1).0)
  }

  /** A publication after a read that failed: what was read before the failure is assigned, what follows it is not. */
  function PublishLeft(codec: Codec, before: PublishInfo, ts: seq<Token>, leftover: seq<int>): PublishInfo {
    match ReadString16Vector(ts)
    case Fail => before
    case Read(permissions, ts1) =>
      var (ordered, ts2) := FlagOrFalse(ts1);
      var (sticky, ts3) := FlagOrFalse(ts2);
      var (bundleName, ts4) := Str16OrEmpty(ts3);
      FilterLeft(before.(permissions := NarrowAll(codec, permissions), ordered := ordered, sticky := sticky,
                         bundleName := codec.narrow(bundleName)), ts4, leftover)
  }

  function ConvertedPublishInfo(codec: Codec, x: PublishInfo): PublishInfo {
    x.(permissions := ConvertedAll(codec, x.permissions), bundleName := Converted(codec, x.bundleName))
  }

  lemma FilterRoundTrip(head: PublishInfo, x: PublishInfo, rest: seq<Token>)
    ensures var last := [Int32(x.subscriberType), Int32(RuleNumber(x.rule)), Int32(x.maximumVersion)] + rest;
            var read := head.(uids := x.uids, subscriberType := x.subscriberType, rule := x.rule,
                              maximumVersion := x.maximumVersion);
            ReadFilter(head, WriteInt32Vector(x.uids) + last) == Read(read, rest)
  {
    var last := [Int32(x.subscriberType), Int32(RuleNumber(x.rule)), Int32(x.maximumVersion)] + rest;
    Int32VectorRoundTrip(x.uids, last);
    assert last[1..][1..][1..] == rest;
  }

  lemma PublishInfoRoundTrip(codec: Codec, x: PublishInfo, rest: seq<Token>)
    ensures ReadPublishInfo(codec, WritePublishInfo(codec, x) + rest) == Read(ConvertedPublishInfo(codec, x), rest)
  {
    var wides := WidenAll(codec, x.permissions);
    var flags := [Flag(x.ordered), Flag(x.sticky), Str16(codec.widen(x.bundleName))];
    var last := [Int32(x.subscriberType), Int32(RuleNumber(x.rule)), Int32(x.maximumVersion)] + rest;
    var filter := WriteInt32Vector(x.uids) + last;
    assert WritePublishInfo(codec, x) + rest == WriteString16Vector(wides) + (flags + filter);
    String16VectorRoundTrip(wides, flags + filter);
    assert (flags + filter)[1..][1..][1..] == filter;
    assert NarrowAll(codec, wides) == ConvertedAll(codec, x.permissions);
    var head := PublishInfo(NarrowAll(codec, wides), x.ordered, x.sticky, Converted(codec, x.bundleName), [],
                            UNINITIALIZED_SUBSCRIBER_TYPE, AND, DEFAULT_VERSION);
    FilterRoundTrip(head, x, rest);
  }

  lemma PublishInfoSurvivesExactly(codec: Codec, x: PublishInfo, rest: seq<Token>)
    ensures ReadPublishInfo(codec, WritePublishInfo(codec, x) + rest) == Read(x, rest) <==>
              AllSurvive(codec, x.permissions) && Survives(codec, x.bundleName)
  {
    PublishInfoRoundTrip(codec, x, rest);
    SurvivesExactly(codec, x.permissions);
  }

  /** No two subscriptions share a wire form unless conversion makes them the same, and where one ends is never
      in doubt. */
  lemma SubscribeInfoUnambiguous(codec: Codec, x: SubscribeInfo, y: SubscribeInfo, restX: seq<Token>, restY: seq<Token>)
    requires WriteSubscribeInfo(codec, x) + restX == WriteSubscribeInfo(codec, y) + restY
    ensures ConvertedSubscribeInfo(codec, x) == ConvertedSubscribeInfo(codec, y) && restX == restY
  {
    SubscribeInfoRoundTrip(codec, x, restX);
    SubscribeInfoRoundTrip(codec, y, restY);
  }
}
