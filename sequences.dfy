/** Facts about sequences that the list and text operations share. */
module Sequences {

  /** How often `x` occurs in a non-empty sequence: in its first element, then in the rest. */
  lemma CountHead<T>(s: seq<T>, x: T)
    requires |s| > 0
    ensures multiset(s)[x] == (if s[0] == x then 1 else 0) + multiset(s[1..])[x]
  {
    assert s == [s[0]] + s[1..];
  }
}
