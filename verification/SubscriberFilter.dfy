/** The filter a publisher puts on its receivers: which criteria it set, which a subscriber meets, and the
    16-bit masks the service compares. */
module SubscriberFilter {
  import opened Wrappers

  const FILTER_BUNDLE: bv16 := 1
  const FILTER_PERMISSION: bv16 := 2
  const FILTER_TYPE: bv16 := 4
  const FILTER_UID: bv16 := 8
  const FILTER_VERSION: bv16 := 16

  const UNINITIALIZED_SUBSCRIBER_TYPE := -1
  const ALL_SUBSCRIBER_TYPE := 0
  const SYSTEM_SUBSCRIBER_TYPE := 1
  const DEFAULT_VERSION := -1

  datatype Rule = AND | OR

  datatype PublishInfo = PublishInfo(
    permissions: seq<string>,
    ordered: bool,
    sticky: bool,
    bundleName: string,
    uids: seq<int>,
    subscriberType: int,
    rule: Rule,
    maximumVersion: int)

  /** What the checks ask about a subscriber. `version` is the API version its bundle targets, if the lookup
      succeeds; `permitted` says whether it may receive under a list of permissions. */
  datatype Subject = Subject(bundleName: string, uid: int, isSystem: bool, version: Option<int>,
                             permitted: seq<string> -> bool)

  datatype Criterion = Bundle | Permission | Type | Uid | Version

  predicate Requested(p: PublishInfo, c: Criterion) {
    match c
    case Bundle => p.bundleName != ""
    case Permission => p.permissions != []
    case Type => p.subscriberType != UNINITIALIZED_SUBSCRIBER_TYPE
    case Uid => p.uids != []
    case Version => p.maximumVersion != DEFAULT_VERSION
  }

  predicate Meets(p: PublishInfo, s: Subject, c: Criterion) {
    match c
    case Bundle => p.bundleName == s.bundleName
    case Permission => s.permitted(p.permissions)
    case Type =>
      p.subscriberType == ALL_SUBSCRIBER_TYPE || (p.subscriberType == SYSTEM_SUBSCRIBER_TYPE && s.isSystem)
    case Uid => AsInt32(s.uid) in p.uids
    case Version => s.version.None? || Remainder(s.version.value, 1000) <= p.maximumVersion
  }

  /** static_cast<int32_t> of a 32-bit unsigned number. */
  function AsInt32(n: int): int {
    var low := n % 0x1_0000_0000;
    if low < 0x8000_0000 then low else low - 0x1_0000_0000
  }

  /** C++'s remainder, which takes the sign of the dividend. */
  function Remainder(a: int, b: nat): int
    requires b > 0
  {
    if a >= 0 then a % b else -((-a) % b)
  }

  function Bit(on: bool, mask: bv16): bv16 {
    if on then mask else 0
  }

  function GetFilterSettings(p: PublishInfo): bv16 {
    Bit(p.subscriberType != UNINITIALIZED_SUBSCRIBER_TYPE, FILTER_TYPE)
    | Bit(p.bundleName != "", FILTER_BUNDLE)
    | Bit(p.permissions != [], FILTER_PERMISSION)
    | Bit(p.uids != [], FILTER_UID)
    | Bit(p.maximumVersion != DEFAULT_VERSION, FILTER_VERSION)
  }

  predicate CheckSubscriberBySpecifiedType(subscriberType: int, isSystem: bool) {
    subscriberType == ALL_SUBSCRIBER_TYPE || (subscriberType == SYSTEM_SUBSCRIBER_TYPE && isSystem)
  }

  /** CheckSubscriberBySpecifiedUids. */
  method CheckSubscriberBySpecifiedUids(uid: int, uids: seq<int>) returns (found: bool)
    ensures found <==> uid in uids
  {
    for i := 0 to |uids|
      invariant uid !in uids[..i]
    {
      if uids[i] == uid {
        return true;
      }
    }
    return false;
  }

  predicate CheckSubscriberByMaximumVersion(p: PublishInfo, s: Subject) {
    if p.maximumVersion == DEFAULT_VERSION then false
    else
      match s.version
      case None => true
      case Some(version) => !(Remainder(version, 1000) > p.maximumVersion)
  }

  /** The checks both kinds of subscriber go through. */
  function CommonChecks(p: PublishInfo, s: Subject): bv16 {
    Bit(p.bundleName != "" && p.bundleName == s.bundleName, FILTER_BUNDLE)
    | Bit(p.subscriberType != UNINITIALIZED_SUBSCRIBER_TYPE
          && CheckSubscriberBySpecifiedType(p.subscriberType, s.isSystem), FILTER_TYPE)
    | Bit(p.uids != [] && AsInt32(s.uid) in p.uids, FILTER_UID)
    | Bit(p.permissions != [] && s.permitted(p.permissions), FILTER_PERMISSION)
  }

  /** Subscribers that are running are also checked for their API version. */
  function DynamicChecks(p: PublishInfo, s: Subject): bv16 {
    CommonChecks(p, s) | Bit(CheckSubscriberByMaximumVersion(p, s), FILTER_VERSION)
  }

  predicate Verdict(rule: Rule, checks: bv16, settings: bv16) {
    match rule
    case AND => checks == settings
    case OR => checks & settings != 0
  }

  /** CommonEventSubscriberManager::CheckSubscriberWhetherMatched. */
  predicate DynamicMatched(p: PublishInfo, s: Subject) {
    var settings := GetFilterSettings(p);
    settings == 0 || Verdict(p.rule, DynamicChecks(p, s), settings)
  }

  /** StaticSubscriberManager::CheckSubscriberWhetherMatched. */
  predicate StaticMatched(p: PublishInfo, s: Subject) {
    var settings := GetFilterSettings(p);
    settings == 0 || Verdict(p.rule, CommonChecks(p, s), settings)
  }

  /** The mask with exactly these bits. */
  function Bits(bundle: bool, permission: bool, kind: bool, uid: bool, version: bool): bv16 {
    Bit(bundle, FILTER_BUNDLE) | Bit(permission, FILTER_PERMISSION) | Bit(kind, FILTER_TYPE)
    | Bit(uid, FILTER_UID) | Bit(version, FILTER_VERSION)
  }

  predicate Counts(p: PublishInfo, s: Subject, c: Criterion) {
    Requested(p, c) && Meets(p, s, c)
  }

  /** The bits of the criteria the publisher set. */
  function Asked(p: PublishInfo): bv16 {
    Bits(Requested(p, Bundle), Requested(p, Permission), Requested(p, Type), Requested(p, Uid), Requested(p, Version))
  }

  /** The bits of those among them that the subscriber meets; the version is not checked for everyone. */
  function Earned(p: PublishInfo, s: Subject, version: bool): bv16 {
    Bits(Counts(p, s, Bundle), Counts(p, s, Permission), Counts(p, s, Type), Counts(p, s, Uid),
         version && Counts(p, s, Version))
  }

  lemma MasksMean(p: PublishInfo, s: Subject)
    ensures GetFilterSettings(p) == Asked(p)
    ensures DynamicChecks(p, s) == Earned(p, s, true)
    ensures CommonChecks(p, s) == Earned(p, s, false)
  {
    AskedMeans(p);
    CommonMeans(p, s);
    VersionMeans(p, s);
    LastBit(Counts(p, s, Bundle), Counts(p, s, Permission), Counts(p, s, Type), Counts(p, s, Uid),
            Counts(p, s, Version));
  }

  lemma VersionMeans(p: PublishInfo, s: Subject)
    ensures CheckSubscriberByMaximumVersion(p, s) <==> Counts(p, s, Version)
  {
  }

  lemma LastBit(bundle: bool, permission: bool, kind: bool, uid: bool, version: bool)
    ensures Bits(bundle, permission, kind, uid, version) ==
              Bits(bundle, permission, kind, uid, false) | Bit(version, FILTER_VERSION)
  {
  }

  lemma AskedMeans(p: PublishInfo)
    ensures GetFilterSettings(p) == Asked(p)
  {
  }

  lemma CommonMeans(p: PublishInfo, s: Subject)
    ensures CommonChecks(p, s) == Earned(p, s, false)
  {
  }

  /** The criteria a check looks at and finds met. */
  ghost predicate Met(p: PublishInfo, s: Subject, c: Criterion, version: bool) {
    Counts(p, s, c) && (c != Version || version)
  }

  lemma OverAll(q: Criterion -> bool)
    ensures (forall c :: q(c)) <==> q(Bundle) && q(Permission) && q(Type) && q(Uid) && q(Version)
  {
    if q(Bundle) && q(Permission) && q(Type) && q(Uid) && q(Version) {
      forall c ensures q(c) {
        match c { case Bundle => case Permission => case Type => case Uid => case Version => }
      }
    }
  }

  lemma NoneRequested(p: PublishInfo)
    ensures (forall c :: !Requested(p, c)) <==>
              && !Requested(p, Bundle) && !Requested(p, Permission) && !Requested(p, Type)
              && !Requested(p, Uid) && !Requested(p, Version)
  {
    OverAll(c => !Requested(p, c));
  }

  lemma NoneMet(p: PublishInfo, s: Subject, version: bool)
    ensures (forall c :: !Met(p, s, c, version)) <==>
              && !Counts(p, s, Bundle) && !Counts(p, s, Permission) && !Counts(p, s, Type)
              && !Counts(p, s, Uid) && !(version && Counts(p, s, Version))
  {
    OverAll(c => !Met(p, s, c, version));
  }

  lemma AllMet(p: PublishInfo, s: Subject, version: bool)
    ensures (forall c :: Requested(p, c) ==> Met(p, s, c, version)) <==>
              && Counts(p, s, Bundle) == Requested(p, Bundle) && Counts(p, s, Permission) == Requested(p, Permission)
              && Counts(p, s, Type) == Requested(p, Type) && Counts(p, s, Uid) == Requested(p, Uid)
              && (version && Counts(p, s, Version)) == Requested(p, Version)
  {
    OverAll(c => Requested(p, c) ==> Met(p, s, c, version));
  }

  lemma EarnedAgainstAsked(p: PublishInfo, s: Subject, version: bool)
    ensures Earned(p, s, version) & Asked(p) == Earned(p, s, version)
    ensures Asked(p) == 0 <==> forall c :: !Requested(p, c)
    ensures Earned(p, s, version) == Asked(p) <==> forall c :: Requested(p, c) ==> Met(p, s, c, version)
    ensures Earned(p, s, version) == 0 <==> forall c :: !Met(p, s, c, version)
  {
    NoneRequested(p);
    NoneMet(p, s, version);
    AllMet(p, s, version);
    EqualBits(Counts(p, s, Bundle), Counts(p, s, Permission), Counts(p, s, Type), Counts(p, s, Uid),
              version && Counts(p, s, Version),
              Requested(p, Bundle), Requested(p, Permission), Requested(p, Type), Requested(p, Uid),
              Requested(p, Version));
  }

  /** Bits of one mask that are in another. */
  lemma EqualBits(b: bool, p: bool, k: bool, u: bool, v: bool, b1: bool, p1: bool, k1: bool, u1: bool, v1: bool)
    requires (b ==> b1) && (p ==> p1) && (k ==> k1) && (u ==> u1) && (v ==> v1)
    ensures Bits(b, p, k, u, v) & Bits(b1, p1, k1, u1, v1) == Bits(b, p, k, u, v)
    ensures Bits(b, p, k, u, v) == Bits(b1, p1, k1, u1, v1) <==>
              b == b1 && p == p1 && k == k1 && u == u1 && v == v1
    ensures Bits(b, p, k, u, v) == 0 <==> !b && !p && !k && !u && !v
    ensures Bits(b1, p1, k1, u1, v1) == 0 <==> !b1 && !p1 && !k1 && !u1 && !v1
  {
  }

  /** What comparing the two masks comes to. */
  lemma Comparison(p: PublishInfo, s: Subject, version: bool)
    ensures Asked(p) == 0 <==> forall c :: !Requested(p, c)
    ensures Verdict(AND, Earned(p, s, version), Asked(p)) <==> forall c :: Requested(p, c) ==> Met(p, s, c, version)
    ensures Verdict(OR, Earned(p, s, version), Asked(p)) <==> exists c :: Met(p, s, c, version)
  {
    EarnedAgainstAsked(p, s, version);
  }

  /** The bits a subscriber earns are always among those the publisher set. */
  lemma ChecksAreRequested(p: PublishInfo, s: Subject)
    ensures DynamicChecks(p, s) & GetFilterSettings(p) == DynamicChecks(p, s)
    ensures CommonChecks(p, s) & GetFilterSettings(p) == CommonChecks(p, s)
  {
    MasksMean(p, s);
    EarnedAgainstAsked(p, s, true);
    EarnedAgainstAsked(p, s, false);
  }

  /** What the mask comparison means: no filter matches everyone; AND asks for every requested criterion; OR asks
      for at least one of them. */
  ghost predicate Intended(p: PublishInfo, s: Subject) {
    || (forall c :: !Requested(p, c))
    || (p.rule == AND && forall c :: Requested(p, c) ==> Meets(p, s, c))
    || (p.rule == OR && exists c :: Requested(p, c) && Meets(p, s, c))
  }

  lemma DynamicMatchedMeans(p: PublishInfo, s: Subject)
    ensures DynamicMatched(p, s) <==> Intended(p, s)
  {
    MasksMean(p, s);
    Comparison(p, s, true);
    assert forall c :: Met(p, s, c, true) <==> Requested(p, c) && Meets(p, s, c);
  }

  /** A static subscriber is never checked for its version: a maximum version makes AND fail and adds nothing to
      OR. Without one the two kinds of subscriber are judged alike. */
  lemma StaticMatchedMeans(p: PublishInfo, s: Subject)
    ensures p.maximumVersion == DEFAULT_VERSION ==> (StaticMatched(p, s) <==> DynamicMatched(p, s))
    ensures p.maximumVersion != DEFAULT_VERSION && p.rule == AND ==> !StaticMatched(p, s)
    ensures p.maximumVersion != DEFAULT_VERSION && p.rule == OR ==>
              (StaticMatched(p, s) <==> exists c :: c != Version && Requested(p, c) && Meets(p, s, c))
  {
    MasksMean(p, s);
    Comparison(p, s, false);
    if p.maximumVersion != DEFAULT_VERSION {
      assert Requested(p, Version) && !Met(p, s, Version, false);
      assert forall c :: Met(p, s, c, false) <==> c != Version && Requested(p, c) && Meets(p, s, c);
    }
  }
}
