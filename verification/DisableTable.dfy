/** The table of events that bundles have switched off, keyed by a string made of user and bundle, on values. */
module DisableTable {
  import opened Lists

  // ---- Keys

  function Digit(d: nat): char
    requires d < 10
  {
    ['0', '1', '2', '3', '4', '5', '6', '7', '8', '9'][d]
  }

  function Digits(n: nat): string {
    if n < 10 then [Digit(n)] else Digits(n / 10) + [Digit(n % 10)]
  }

  /** std::to_string. */
  function ToString(n: int): string {
    if n < 0 then "-" + Digits(-n) else Digits(n)
  }

  function Key(userId: int, bundleName: string): string {
    ToString(userId) + "_" + bundleName
  }

  lemma {:induction false} DigitsInjective(m: nat, n: nat)
    requires Digits(m) == Digits(n)
    ensures m == n
  {
    DigitsShape(m);
    DigitsShape(n);
    var s := Digits(m);
    if m >= 10 && n >= 10 {
      assert Digits(m / 10) == s[..|s| - 1] && Digits(n / 10) == s[..|s| - 1];
      DigitsInjective(m / 10, n / 10);
      assert Digit(m % 10) == s[|s| - 1] == Digit(n % 10);
    } else if m < 10 && n < 10 {
      assert s[0] == Digit(m) == Digit(n);
    }
  }

  lemma {:induction false} DigitsShape(n: nat)
    ensures |Digits(n)| >= 1 && (|Digits(n)| == 1 <==> n < 10)
    ensures forall c :: c in Digits(n) ==> '0' <= c <= '9'
  {
    if n >= 10 {
      DigitsShape(n / 10);
    }
  }

  lemma SignShows(n: int)
    ensures ToString(n) != "" && (ToString(n)[0] == '-' <==> n < 0)
    ensures '_' !in ToString(n)
  {
    var digits := Digits(if n < 0 then -n else n);
    DigitsShape(if n < 0 then -n else n);
    assert digits[0] in digits;
  }

  lemma ToStringInjective(m: int, n: int)
    requires ToString(m) == ToString(n)
    ensures m == n
  {
    SignShows(m);
    SignShows(n);
    if m < 0 {
      assert Digits(-m) == ToString(m)[1..] && Digits(-n) == ToString(n)[1..];
      DigitsInjective(-m, -n);
    } else {
      DigitsInjective(m, n);
    }
  }

  /** The place of the first separator. */
  function FirstSeparator(s: string): nat {
    if s == "" || s[0] == '_' then 0 else 1 + FirstSeparator(s[1..])
  }

  lemma {:induction false} SeparatorAfter(a: string, x: string)
    requires '_' !in a
    ensures FirstSeparator(a + "_" + x) == |a|
  {
    if a != "" {
      assert (a + "_" + x)[1..] == a[1..] + "_" + x;
      SeparatorAfter(a[1..], x);
    } else {
      assert (a + "_" + x)[0] == '_';
    }
  }

  lemma SplitsAtFirst(a: string, b: string, x: string, y: string)
    requires '_' !in a && '_' !in b && a + "_" + x == b + "_" + y
    ensures a == b && x == y
  {
    SeparatorAfter(a, x);
    SeparatorAfter(b, y);
    var s := a + "_" + x;
    assert a == s[..|a|] && b == s[..|b|] && x == s[|a| + 1..] && y == s[|b| + 1..];
  }

  /** No two pairs of user and bundle share a key, although bundle names may contain the separator. */
  lemma KeyInjective(u1: int, b1: string, u2: int, b2: string)
    requires Key(u1, b1) == Key(u2, b2)
    ensures u1 == u2 && b1 == b2
  {
    SignShows(u1);
    SignShows(u2);
    SplitsAtFirst(ToString(u1), ToString(u2), b1, b2);
    ToStringInjective(u1, u2);
  }

  // ---- The table

  type Table = map<string, seq<string>>

  /** One round of the loop over the events of an update. */
  function UpdateOne(current: seq<string>, event: string, enable: bool): seq<string> {
    if enable then Erase(current, event)
    else if event in current then current else current + [event]
  }

  function UpdateAll(current: seq<string>, events: seq<string>, enable: bool): seq<string>
    decreases |events|
  {
    if events == [] then current else UpdateAll(UpdateOne(current, events[0], enable), events[1..], enable)
  }

  /** UpdateDisableEvents. A key's first disabling stores the list as it came. */
  function Update(t: Table, key: string, events: seq<string>, enable: bool): Table {
    if key !in t then (if enable then t else t[key := events])
    else
      var current := UpdateAll(t[key], events, enable);
      if current == [] then t - {key} else t[key := current]
  }

  predicate Disabled(t: Table, key: string, event: string) {
    key in t && event in t[key]
  }

  /** How many times the table lists an event for a key. */
  function Copies(t: Table, key: string, event: string): nat {
    if key in t then multiset(t[key])[event] else 0
  }

  lemma {:induction false} UpdateCount(current: seq<string>, events: seq<string>, enable: bool, x: string)
    ensures var m, k := multiset(current)[x], multiset(events)[x];
            multiset(UpdateAll(current, events, enable))[x] ==
              if enable then (if m > k then m - k else 0) else if m == 0 && k > 0 then 1 else m
    decreases |events|
  {
    if events != [] {
      assert events == [events[0]] + events[1..];
      EraseCount(current, events[0], x);
      assert events[0] in current <==> multiset(current)[events[0]] > 0;
      UpdateCount(UpdateOne(current, events[0], enable), events[1..], enable, x);
    }
  }

  /** What an update does to the number of times an event is listed. */
  lemma CopiesAfter(t: Table, key: string, events: seq<string>, enable: bool, k: string, x: string)
    ensures Copies(Update(t, key, events, enable), k, x) ==
              if k != key then Copies(t, k, x)
              else if enable then
                (if Copies(t, key, x) > multiset(events)[x] then Copies(t, key, x) - multiset(events)[x] else 0)
              else if key !in t then multiset(events)[x]
              else if Copies(t, key, x) == 0 && multiset(events)[x] > 0 then 1
              else Copies(t, key, x)
  {
    if key in t {
      UpdateCount(t[key], events, enable, x);
    }
  }

  lemma DisabledIsListed(t: Table, key: string, x: string)
    ensures Disabled(t, key, x) <==> Copies(t, key, x) > 0
  {
    assert key in t ==> (x in t[key] <==> multiset(t[key])[x] > 0);
  }

  /** An update sets the events it names and touches no other event and no other key, except that enabling an
      event listed more often than it is named leaves it disabled. */
  lemma UpdateExactly(t: Table, key: string, events: seq<string>, enable: bool, k: string, x: string)
    ensures k != key || x !in events ==> (Disabled(Update(t, key, events, enable), k, x) <==> Disabled(t, k, x))
    ensures x in events ==>
              ((Disabled(Update(t, key, events, enable), key, x) <==> !enable)
               <==> !(enable && Copies(t, key, x) > multiset(events)[x]))
  {
    CopiesAfter(t, key, events, enable, k, x);
    CopiesAfter(t, key, events, enable, key, x);
    DisabledIsListed(t, k, x);
    DisabledIsListed(Update(t, key, events, enable), k, x);
    DisabledIsListed(Update(t, key, events, enable), key, x);
    assert x in events <==> multiset(events)[x] > 0;
  }

  /** An event named twice when it is first disabled is still disabled after it is enabled. */
  lemma StillDisabled(key: string, x: string)
    ensures Disabled(Update(Update(map[], key, [x, x], false), key, [x], true), key, x)
  {
    var t := Update(map[], key, [x, x], false);
    assert multiset(t[key])[x] == 2 && multiset([x])[x] == 1;
    UpdateExactly(t, key, [x], true, key, x);
  }

  // ---- Runs

  datatype Operation =
    | Setting(bundleName: string, events: seq<string>, enable: bool, userId: int)
    | Removal(bundleName: string, userId: int)

  function Apply(t: Table, op: Operation): Table {
    match op
    case Setting(b, events, enable, u) => Update(t, Key(u, b), events, enable)
    case Removal(b, u) => t - {Key(u, b)}
  }

  function After(log: seq<Operation>): Table {
    if log == [] then map[] else Apply(After(log[..|log| - 1]), log[|log| - 1])
  }

  /** What the last operation that concerns an event of a bundle of a user said: nothing said means enabled. */
  function LastSetting(log: seq<Operation>, b: string, x: string, u: int): bool {
    if log == [] then false
    else
      var op := log[|log| - 1];
      if op.bundleName == b && op.userId == u && (op.Removal? || x in op.events) then op.Setting? && !op.enable
      else LastSetting(log[..|log| - 1], b, x, u)
  }

  ghost predicate NoRepeats(op: Operation) {
    op.Setting? ==> NoDuplicates(op.events)
  }

  lemma StepSetting(t: Table, op: Operation, b: string, x: string, u: int)
    requires NoRepeats(op) && Copies(t, Key(u, b), x) <= 1
    ensures Copies(Apply(t, op), Key(u, b), x) <= 1
    ensures Disabled(Apply(t, op), Key(u, b), x) <==>
              if op.bundleName == b && op.userId == u && (op.Removal? || x in op.events) then op.Setting? && !op.enable
              else Disabled(t, Key(u, b), x)
  {
    if Key(op.userId, op.bundleName) == Key(u, b) {
      KeyInjective(op.userId, op.bundleName, u, b);
    }
    if op.Setting? {
      CountOnce(op.events, x);
      CopiesAfter(t, Key(op.userId, op.bundleName), op.events, op.enable, Key(u, b), x);
      UpdateExactly(t, Key(op.userId, op.bundleName), op.events, op.enable, Key(u, b), x);
      assert x in op.events <==> multiset(op.events)[x] > 0;
    }
  }

  /** When no update names an event twice, the table always reports the last setting made for the bundle, the
      event and the user. */
  lemma {:induction false} ReportsLastSetting(log: seq<Operation>, b: string, x: string, u: int)
    requires forall op :: op in log ==> NoRepeats(op)
    ensures Disabled(After(log), Key(u, b), x) <==> LastSetting(log, b, x, u)
    ensures Copies(After(log), Key(u, b), x) <= 1
  {
    if log != [] {
      var before, op := log[..|log| - 1], log[|log| - 1];
      assert op in log && forall o :: o in before ==> o in log;
      ReportsLastSetting(before, b, x, u);
      StepSetting(After(before), op, b, x, u);
    }
  }
}
