/** Lists without duplicates, and erasing one element from a list. */
module Lists {

  ghost predicate NoDuplicates<T>(s: seq<T>) {
    forall i, j :: 0 <= i < j < |s| ==> s[i] != s[j]
  }

  /** std::vector::erase of the first occurrence, if there is one. */
  function Erase<T(==)>(s: seq<T>, x: T): (rest: seq<T>) {
    if s == [] then [] else if s[0] == x then s[1..] else [s[0]] + Erase(s[1..], x)
  }

  lemma {:induction false} EraseMembers<T>(s: seq<T>, x: T, y: T)
    requires NoDuplicates(s)
    ensures y in Erase(s, x) <==> y in s && y != x
    ensures NoDuplicates(Erase(s, x))
  {
    if s == [] {
    } else {
      assert s == [s[0]] + s[1..];
      if s[0] != x {
        EraseMembers(s[1..], x, y);
        EraseMembers(s[1..], x, s[0]);
      }
    }
  }

  lemma {:induction false} EraseLength<T>(s: seq<T>, x: T)
    ensures |Erase(s, x)| == |s| - (if x in s then 1 else 0)
  {
    if s != [] {
      EraseLength(s[1..], x);
    }
  }

  lemma {:induction false} EraseAbsent<T>(s: seq<T>, x: T)
    requires x !in s
    ensures Erase(s, x) == s
  {
    if s != [] {
      EraseAbsent(s[1..], x);
    }
  }

  lemma {:induction false} EraseAppend<T>(s: seq<T>, x: T)
    requires x !in s
    ensures Erase(s + [x], x) == s
  {
    if s != [] {
      assert (s + [x])[1..] == s[1..] + [x];
      EraseAppend(s[1..], x);
    }
  }

  lemma {:induction false} SameElementsSameMultiset<T>(a: seq<T>, b: seq<T>)
    requires NoDuplicates(a) && NoDuplicates(b)
    requires forall x :: x in a <==> x in b
    ensures multiset(a) == multiset(b)
  {
    forall x ensures multiset(a)[x] == multiset(b)[x] {
      CountOnce(a, x);
      CountOnce(b, x);
    }
  }

  lemma {:induction false} CountOnce<T>(s: seq<T>, x: T)
    requires NoDuplicates(s)
    ensures multiset(s)[x] == if x in s then 1 else 0
  {
    if s != [] {
      CountOnce(s[1..], x);
      assert s == [s[0]] + s[1..];
    }
  }

  lemma {:induction false} EraseCount<T>(s: seq<T>, x: T, y: T)
    ensures multiset(Erase(s, x))[y] == multiset(s)[y] - (if x == y && x in s then 1 else 0)
  {
    if s != [] {
      assert s == [s[0]] + s[1..];
      EraseCount(s[1..], x, y);
    }
  }

  lemma {:induction false} EraseAt<T>(s: seq<T>, i: nat)
    requires i < |s| && s[i] !in s[..i]
    ensures Erase(s, s[i]) == s[..i] + s[i + 1..]
  {
    if i > 0 {
      assert s[0] in s[..i] && s[1..][..i - 1] == s[..i][1..];
      EraseAt(s[1..], i - 1);
      assert [s[0]] + (s[1..][..i - 1] + s[1..][i..]) == s[..i] + s[i + 1..];
    }
  }

  lemma {:induction false} EraseIsPart<T>(s: seq<T>, x: T)
    ensures forall y :: y in Erase(s, x) ==> y in s
  {
    if s != [] && s[0] != x {
      EraseIsPart(s[1..], x);
    }
  }
}
