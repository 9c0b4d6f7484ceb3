module Wrappers {
  datatype Option<T> = None | Some(value: T)

  /** A multiset that is not empty has a member. */
  lemma SomeMember<T>(s: multiset<T>) returns (x: T)
    requires |s| > 0
    ensures x in s
  {
    x :| x in s;
  }

  /** A set that is not empty has a member. */
  lemma Someone<T>(s: set<T>) returns (x: T)
    requires s != {}
    ensures x in s
  {
    x :| x in s;
  }
}
