/** The two library algorithms the registry's update relies on: sorting a list of event names, and
    std::set_difference of two sorted lists, which counts copies. */
module SortedStrings {

  /** std::string's operator<. */
  predicate Less(a: string, b: string) {
    if b == "" then false
    else if a == "" then true
    else a[0] < b[0] || (a[0] == b[0] && Less(a[1..], b[1..]))
  }

  lemma {:induction false} LessIsStrict(a: string, b: string)
    ensures !(Less(a, b) && Less(b, a))
    ensures !Less(a, b) && !Less(b, a) ==> a == b
  {
    if a != "" && b != "" {
      LessIsStrict(a[1..], b[1..]);
      assert a == [a[0]] + a[1..] && b == [b[0]] + b[1..];
    }
  }

  lemma {:induction false} LessIsTransitive(a: string, b: string, c: string)
    requires !Less(b, a) && !Less(c, b)
    ensures !Less(c, a)
  {
    if a != "" && b != "" && c != "" && a[0] == b[0] == c[0] {
      LessIsTransitive(a[1..], b[1..], c[1..]);
    }
  }

  predicate Sorted(s: seq<string>) {
    |s| <= 1 || (!Less(s[1], s[0]) && Sorted(s[1..]))
  }

  function Place(x: string, s: seq<string>): seq<string> {
    if s == [] || !Less(s[0], x) then [x] + s else [s[0]] + Place(x, s[1..])
  }

  function Sort(s: seq<string>): seq<string> {
    if s == [] then [] else Place(s[0], Sort(s[1..]))
  }

  lemma {:induction false} PlaceSorted(x: string, s: seq<string>)
    requires Sorted(s)
    ensures Sorted(Place(x, s)) && multiset(Place(x, s)) == multiset(s) + multiset{x}
    ensures Place(x, s)[0] == x || (s != [] && Place(x, s)[0] == s[0])
  {
    if s != [] {
      assert s == [s[0]] + s[1..];
      if Less(s[0], x) {
        PlaceSorted(x, s[1..]);
        LessIsStrict(s[0], x);
      } else {
        assert ([x] + s)[1..] == s;
      }
    }
  }

  lemma FirstAndRest(s: seq<string>)
    requires s != []
    ensures multiset(s) == multiset{s[0]} + multiset(s[1..])
  {
    assert s == [s[0]] + s[1..];
  }

  lemma {:induction false} SortSorts(s: seq<string>)
    ensures Sorted(Sort(s)) && multiset(Sort(s)) == multiset(s)
  {
    if s != [] {
      SortSorts(s[1..]);
      PlaceSorted(s[0], Sort(s[1..]));
      FirstAndRest(s);
    }
  }

  /** std::set_difference. */
  function Difference(a: seq<string>, b: seq<string>): seq<string>
    decreases |a| + |b|
  {
    if a == [] then []
    else if b == [] then a
    else if Less(a[0], b[0]) then [a[0]] + Difference(a[1..], b)
    else if Less(b[0], a[0]) then Difference(a, b[1..])
    else Difference(a[1..], b[1..])
  }

  lemma {:induction false} SmallerIsAbsent(x: string, s: seq<string>)
    requires Sorted(s) && (s != [] ==> Less(x, s[0]))
    ensures x !in s
  {
    if s != [] {
      LessIsStrict(x, s[0]);
      if |s| > 1 {
        if !Less(x, s[1]) { LessIsTransitive(s[0], s[1], x); }
        SmallerIsAbsent(x, s[1..]);
      }
      assert s == [s[0]] + s[1..];
    }
  }

  lemma CountFirst(s: seq<string>, x: string)
    requires s != []
    ensures multiset(s)[x] == multiset(s[1..])[x] + (if s[0] == x then 1 else 0)
  {
    assert s == [s[0]] + s[1..];
  }

  /** On sorted lists the difference is multiset difference: each copy in `b` cancels one copy in `a`. */
  lemma {:induction false} DifferenceCounts(a: seq<string>, b: seq<string>, x: string)
    requires Sorted(a) && Sorted(b)
    ensures multiset(Difference(a, b))[x] ==
              if multiset(a)[x] > multiset(b)[x] then multiset(a)[x] - multiset(b)[x] else 0
    decreases |a| + |b|
  {
    if a != [] && b != [] {
      CountFirst(a, x);
      CountFirst(b, x);
      if Less(a[0], b[0]) {
        SmallerIsAbsent(a[0], b);
        DifferenceCounts(a[1..], b, x);
      } else if Less(b[0], a[0]) {
        SmallerIsAbsent(b[0], a);
        DifferenceCounts(a, b[1..], x);
      } else {
        LessIsStrict(a[0], b[0]);
        DifferenceCounts(a[1..], b[1..], x);
      }
    }
  }
}
