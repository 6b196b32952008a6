/** General facts about sequences used by the model: mapping a function
    over a sequence, concatenating strings, and contiguous occurrence, with
    how each behaves under append and permutation. */
module Sequences {

  /** Applies `f` to every element, keeping the order. */
  function Map<A, B>(f: A -> B, s: seq<A>): (r: seq<B>)
    ensures |r| == |s|
    ensures forall i :: 0 <= i < |s| ==> r[i] == f(s[i])
  {
    if s == [] then [] else [f(s[0])] + Map(f, s[1..])
  }

  lemma MapAppend<A, B>(f: A -> B, s: seq<A>, t: seq<A>)
    ensures Map(f, s + t) == Map(f, s) + Map(f, t)
  {
  }

  /** Removing a matched element from two permutations leaves permutations. */
  lemma RemoveMatched<T>(s: seq<T>, t: seq<T>, i: nat)
    requires multiset(s) == multiset(t)
    requires s != [] && i < |t| && t[i] == s[0]
    ensures multiset(s[1..]) == multiset(t[..i] + t[i + 1..])
  {
    var x, rest := s[0], t[..i] + t[i + 1..];
    assert t == t[..i] + [x] + t[i + 1..];
    assert s == [x] + s[1..];
    forall y
      ensures multiset(s[1..])[y] == multiset(rest)[y]
    {
      assert multiset(s)[y] == multiset([x])[y] + multiset(s[1..])[y];
      assert multiset(t)[y] == multiset(t[..i])[y] + multiset([x])[y] + multiset(t[i + 1..])[y];
    }
  }

  /** A position of `x` in `t`, which holds `x` since a permutation does. */
  lemma IndexOf<T>(t: seq<T>, x: T) returns (i: nat)
    requires x in multiset(t)
    ensures i < |t| && t[i] == x
  {
    i :| 0 <= i < |t| && t[i] == x;
  }

  /** Mapping a sequence with its element at `i` taken out. */
  lemma MapWithout<A, B>(f: A -> B, t: seq<A>, i: nat)
    requires i < |t|
    ensures multiset(Map(f, t)) == multiset(Map(f, t[..i] + t[i + 1..])) + multiset{f(t[i])}
  {
    assert t == t[..i] + t[i..];
    MapAppend(f, t[..i], t[i..]);
    MapCons(f, t[i..]);
    assert t[i..][1..] == t[i + 1..];
    MapAppend(f, t[..i], t[i + 1..]);
  }

  lemma MapCons<A, B>(f: A -> B, s: seq<A>)
    requires s != []
    ensures multiset(Map(f, s)) == multiset{f(s[0])} + multiset(Map(f, s[1..]))
  {
    assert Map(f, s) == [f(s[0])] + Map(f, s[1..]);
  }

  /** The inductive step of `MapPermutation`: matching the first element of
      `s` with `t[i]` extends a permutation of the rest to the whole. */
  lemma MapMatched<A, B>(f: A -> B, s: seq<A>, t: seq<A>, i: nat)
    requires s != [] && i < |t| && t[i] == s[0]
    requires multiset(Map(f, s[1..])) == multiset(Map(f, t[..i] + t[i + 1..]))
    ensures multiset(Map(f, s)) == multiset(Map(f, t))
  {
    MapWithout(f, t, i);
    MapCons(f, s);
  }

  /** Mapping a permutation yields a permutation. */
  lemma {:induction false} MapPermutation<A, B>(f: A -> B, s: seq<A>, t: seq<A>)
    requires multiset(s) == multiset(t)
    ensures multiset(Map(f, s)) == multiset(Map(f, t))
    decreases |s|
  {
    if s == [] {
      assert |t| == |multiset(t)| == 0;
    } else {
      var i := IndexOf(t, s[0]);
      RemoveMatched(s, t, i);
      MapPermutation(f, s[1..], t[..i] + t[i + 1..]);
      MapMatched(f, s, t, i);
    }
  }

  /** Concatenation of a sequence of strings. */
  function Concat(ss: seq<string>): (r: string)
    ensures |ss| == 0 ==> r == ""
  {
    if ss == [] then "" else ss[0] + Concat(ss[1..])
  }

  lemma {:induction false} ConcatAppend(ss: seq<string>, tt: seq<string>)
    ensures Concat(ss + tt) == Concat(ss) + Concat(tt)
    decreases |ss|
  {
    if ss == [] {
      assert ss + tt == tt;
    } else {
      assert (ss + tt)[1..] == ss[1..] + tt;
      ConcatAppend(ss[1..], tt);
    }
  }

  /** The length of a concatenation does not depend on the order of its parts. */
  lemma {:induction false} ConcatLengthPermutation(ss: seq<string>, tt: seq<string>)
    requires multiset(ss) == multiset(tt)
    ensures |Concat(ss)| == |Concat(tt)|
    decreases |ss|
  {
    if ss == [] {
      assert |tt| == |multiset(tt)| == 0;
    } else {
      var x := ss[0];
      assert x in multiset(tt);
      var i :| 0 <= i < |tt| && tt[i] == x;
      var before, after := tt[..i], tt[i + 1..];
      RemoveMatched(ss, tt, i);
      ConcatLengthPermutation(ss[1..], before + after);
      assert tt == before + ([x] + after);
      ConcatAppend(before, [x] + after);
      ConcatAppend([x], after);
      ConcatAppend(before, after);
    }
  }

  /** `t` occurs as a contiguous piece of `s`. */
  predicate Occurs(t: string, s: string)
    decreases |s|
  {
    t <= s || (|s| > 0 && Occurs(t, s[1..]))
  }

  /** A prefix of the middle part occurs in the whole. */
  lemma {:induction false} OccursInMiddle(t: string, a: string, b: string, c: string)
    requires t <= b
    ensures Occurs(t, a + b + c)
    decreases |a|
  {
    if a == [] {
      assert a + b + c == b + c;
    } else {
      assert (a + b + c)[1..] == a[1..] + b + c;
      OccursInMiddle(t, a[1..], b, c);
    }
  }

  /** A concatenation split around its part at `i`. */
  lemma {:induction false} ConcatAround(ss: seq<string>, i: nat)
    requires i < |ss|
    ensures Concat(ss) == Concat(ss[..i]) + ss[i] + Concat(ss[i + 1..])
    decreases i
  {
    if i == 0 {
      assert ss[..0] == [];
    } else {
      var tail := ss[1..];
      ConcatAround(tail, i - 1);
      assert tail[..i - 1] == ss[..i][1..];
      assert tail[i - 1] == ss[i];
      assert tail[i..] == ss[i + 1..];
      assert Concat(ss[..i]) == ss[0] + Concat(ss[..i][1..]);
    }
  }

  /** Every part of a concatenation occurs in it. */
  lemma ConcatContainsParts(ss: seq<string>, i: nat)
    requires i < |ss|
    ensures Occurs(ss[i], Concat(ss))
  {
    ConcatAround(ss, i);
    OccursInMiddle(ss[i], Concat(ss[..i]), ss[i], Concat(ss[i + 1..]));
  }

  /** A piece of the middle part occurs in the whole. */
  lemma {:induction false} OccursWithin(t: string, a: string, b: string, c: string)
    requires Occurs(t, b)
    ensures Occurs(t, a + b + c)
    decreases |b|
  {
    if t <= b {
      OccursInMiddle(t, a, b, c);
    } else {
      assert a + b + c == (a + [b[0]]) + b[1..] + c;
      OccursWithin(t, a + [b[0]], b[1..], c);
    }
  }
}
