/** Sequences that list a finite set once each, in an unspecified order.
    Go's `range` over a map yields its keys (or entries) this way, so every
    place the program iterates over a map is modelled by one such sequence,
    and every property about it is proved for all of them. */
module Enumerations {

  /** No element occurs twice in `s`. */
  ghost predicate Distinct<T>(s: seq<T>) {
    forall i, j :: 0 <= i < j < |s| ==> s[i] != s[j]
  }

  /** `s` lists every element of `elems` exactly once, in some order. */
  ghost predicate IsEnumeration<T(!new)>(s: seq<T>, elems: set<T>) {
    Distinct(s) && (forall x :: x in s <==> x in elems)
  }

  /** Dropping the first element of an enumeration enumerates the rest. */
  lemma TailEnumerates<T(!new)>(s: seq<T>, elems: set<T>)
    requires IsEnumeration(s, elems)
    requires s != []
    ensures IsEnumeration(s[1..], elems - {s[0]})
  {
    forall x
      ensures x in s[1..] <==> x in elems - {s[0]}
    {
      if x in s[1..] {
        var j :| 0 <= j < |s[1..]| && s[1..][j] == x;
        assert s[j + 1] == x;
      }
      if x in elems - {s[0]} {
        var j :| 0 <= j < |s| && s[j] == x;
        assert j != 0;
        assert s[1..][j - 1] == x;
      }
    }
  }

  /** An enumeration is exactly as long as the set has elements. */
  lemma {:induction false} EnumerationLength<T(!new)>(s: seq<T>, elems: set<T>)
    requires IsEnumeration(s, elems)
    ensures |s| == |elems|
    decreases |s|
  {
    if s == [] {
      assert elems == {};
    } else {
      TailEnumerates(s, elems);
      EnumerationLength(s[1..], elems - {s[0]});
    }
  }

  /** In a sequence without repetitions every element has multiplicity one. */
  lemma {:induction false} DistinctMultiplicity<T>(s: seq<T>, x: T)
    requires Distinct(s)
    ensures multiset(s)[x] == if x in s then 1 else 0
    decreases |s|
  {
    if s != [] {
      assert s == [s[0]] + s[1..];
      assert Distinct(s[1..]) by {
        forall i, j | 0 <= i < j < |s[1..]| ensures s[1..][i] != s[1..][j] {
          assert s[1..][i] == s[i + 1] && s[1..][j] == s[j + 1];
        }
      }
      DistinctMultiplicity(s[1..], x);
      if x == s[0] {
        forall j | 0 <= j < |s[1..]|
          ensures s[1..][j] != x
        {
          assert s[1..][j] == s[j + 1];
        }
      }
    }
  }

  /** Two enumerations of the same set are permutations of each other: any
      two iteration orders of one map hold the same elements. */
  lemma EnumerationsArePermutations<T(!new)>(s: seq<T>, t: seq<T>, elems: set<T>)
    requires IsEnumeration(s, elems) && IsEnumeration(t, elems)
    ensures multiset(s) == multiset(t)
  {
    forall x
      ensures multiset(s)[x] == multiset(t)[x]
    {
      DistinctMultiplicity(s, x);
      DistinctMultiplicity(t, x);
    }
  }
}
