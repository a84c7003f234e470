/** Sequence helpers behind list comprehensions with a condition and the
    "seen" sets the integration uses to drop repeats. */
module Seqs {

  /** `[x for x in s if p(x)]`. */
  function Filter<T(!new)>(s: seq<T>, p: T -> bool): (r: seq<T>)
    ensures |r| <= |s|
    ensures forall x :: x in r <==> x in s && p(x)
    decreases |s|
  {
    if |s| == 0 then []
    else
      var rest := Filter(s[..|s| - 1], p);
      assert s == s[..|s| - 1] + [s[|s| - 1]];
      if p(s[|s| - 1]) then rest + [s[|s| - 1]] else rest
  }

  /** A filter that keeps as many elements as it was given kept all of them. */
  lemma {:induction false} FilterKeepsAll<T(!new)>(s: seq<T>, p: T -> bool)
    requires |Filter(s, p)| == |s|
    ensures Filter(s, p) == s
    ensures forall i :: 0 <= i < |s| ==> p(s[i])
    decreases |s|
  {
    if |s| > 0 {
      var init := s[..|s| - 1];
      assert |Filter(init, p)| <= |init|;
      FilterKeepsAll(init, p);
      assert s == init + [s[|s| - 1]];
    }
  }

  /** Filtering one more element. */
  lemma FilterSnoc<T(!new)>(s: seq<T>, x: T, p: T -> bool)
    ensures Filter(s + [x], p) == if p(x) then Filter(s, p) + [x] else Filter(s, p)
  {
    assert (s + [x])[..|s|] == s;
  }

  /** `r` is `s` with some elements left out and the others kept in their
      order (matched greedily from the end). */
  predicate SubSeq<T(==)>(r: seq<T>, s: seq<T>)
    decreases |s|
  {
    if r == [] then true
    else if s == [] then false
    else if r[|r| - 1] == s[|s| - 1] then SubSeq(r[..|r| - 1], s[..|s| - 1])
    else SubSeq(r, s[..|s| - 1])
  }

  /** A filter keeps the order of what it keeps. */
  lemma {:induction false} FilterSubSeq<T(!new)>(s: seq<T>, p: T -> bool)
    ensures SubSeq(Filter(s, p), s)
    decreases |s|
  {
    if |s| > 0 {
      var init, x := s[..|s| - 1], s[|s| - 1];
      var rest := Filter(init, p);
      FilterSubSeq(init, p);
      if p(x) {
        assert Filter(s, p) == rest + [x];
        assert (rest + [x])[..|rest|] == rest;
      } else if rest != [] {
        assert rest[|rest| - 1] in rest;
      }
    }
  }

  /** A filter keeps every occurrence of a kept element and none of the others. */
  lemma {:induction false} FilterCount<T(!new)>(s: seq<T>, p: T -> bool)
    ensures forall x :: multiset(Filter(s, p))[x] == if p(x) then multiset(s)[x] else 0
    decreases |s|
  {
    if |s| > 0 {
      var init, x := s[..|s| - 1], s[|s| - 1];
      FilterCount(init, p);
      assert s == init + [x];
      assert multiset(s) == multiset(init) + multiset{x};
      if p(x) {
        assert multiset(Filter(s, p)) == multiset(Filter(init, p)) + multiset{x};
      }
    } else {
      assert forall x :: multiset(s)[x] == 0;
    }
  }

  /** A filter that rejects some element is strictly shorter. */
  lemma {:induction false} FilterDrops<T(!new)>(s: seq<T>, p: T -> bool, i: nat)
    requires i < |s| && !p(s[i])
    ensures |Filter(s, p)| < |s|
    decreases |s|
  {
    var init := s[..|s| - 1];
    if i < |s| - 1 {
      assert init[i] == s[i];
      FilterDrops(init, p, i);
    } else {
      assert |Filter(init, p)| <= |init|;
    }
  }

  /** A filter is empty exactly when its condition holds nowhere. */
  lemma {:induction false} FilterEmpty<T(!new)>(s: seq<T>, p: T -> bool)
    ensures Filter(s, p) == [] <==> forall i :: 0 <= i < |s| ==> !p(s[i])
    decreases |s|
  {
    if |s| > 0 {
      var init := s[..|s| - 1];
      FilterEmpty(init, p);
      assert forall i :: 0 <= i < |init| ==> init[i] == s[i];
    }
  }

  /** A filter whose condition holds everywhere changes nothing. */
  lemma {:induction false} FilterAll<T(!new)>(s: seq<T>, p: T -> bool)
    requires forall i :: 0 <= i < |s| ==> p(s[i])
    ensures Filter(s, p) == s
    decreases |s|
  {
    if |s| > 0 {
      FilterAll(s[..|s| - 1], p);
      assert s == s[..|s| - 1] + [s[|s| - 1]];
    }
  }

  predicate NoDup<T(==)>(s: seq<T>) {
    forall i, j :: 0 <= i < j < |s| ==> s[i] != s[j]
  }

  /** The elements of `s` in the order they are first seen, each once. */
  function Distinct<T(==,!new)>(s: seq<T>): (r: seq<T>)
    ensures forall x :: x in r <==> x in s
    ensures NoDup(r)
    decreases |s|
  {
    if |s| == 0 then []
    else
      var d := Distinct(s[..|s| - 1]);
      assert s == s[..|s| - 1] + [s[|s| - 1]];
      if s[|s| - 1] in d then d else d + [s[|s| - 1]]
  }

  /** Taking the distinct elements of one more element. */
  lemma DistinctSnoc<T(!new)>(s: seq<T>, x: T)
    ensures Distinct(s + [x]) == if x in s then Distinct(s) else Distinct(s) + [x]
  {
    assert (s + [x])[..|s|] == s;
  }

  /** Position of the first occurrence of `x` in `s`. */
  function IndexOf<T(==)>(s: seq<T>, x: T): (i: nat)
    requires x in s
    ensures i < |s| && s[i] == x && x !in s[..i]
  {
    if s[0] == x then 0 else 1 + IndexOf(s[1..], x)
  }

  lemma {:induction false} IndexOfExtend<T>(s: seq<T>, y: T, x: T)
    requires x in s
    ensures IndexOf(s + [y], x) == IndexOf(s, x)
  {
    if s[0] != x {
      assert (s + [y])[1..] == s[1..] + [y];
      IndexOfExtend(s[1..], y, x);
    }
  }

  /** `Distinct` keeps the order of first occurrences. */
  lemma {:induction false} DistinctFirstSeen<T(!new)>(s: seq<T>)
    ensures forall i, j :: 0 <= i < j < |Distinct(s)| ==>
              IndexOf(s, Distinct(s)[i]) < IndexOf(s, Distinct(s)[j])
    decreases |s|
  {
    if |s| > 0 {
      var init, x := s[..|s| - 1], s[|s| - 1];
      var d := Distinct(init);
      DistinctFirstSeen(init);
      assert s == init + [x];
      forall y | y in init ensures IndexOf(s, y) == IndexOf(init, y) && IndexOf(s, y) < |init| {
        IndexOfExtend(init, x, y);
      }
      if x !in d {
        assert x !in init;
        assert s[..|init|] == init;
        assert IndexOf(s, x) == |init|;
        forall i, j | 0 <= i < j < |Distinct(s)|
          ensures IndexOf(s, Distinct(s)[i]) < IndexOf(s, Distinct(s)[j])
        {
          assert Distinct(s) == d + [x];
          assert d[i] in init;
          if j < |d| {
            assert d[j] in init;
          }
        }
      } else {
        forall i, j | 0 <= i < j < |Distinct(s)|
          ensures IndexOf(s, Distinct(s)[i]) < IndexOf(s, Distinct(s)[j])
        {
          assert Distinct(s) == d;
          assert d[i] in init && d[j] in init;
        }
      }
    }
  }

  /** `[f(x) for x in s]`. */
  function Map<A, B>(s: seq<A>, f: A -> B): seq<B> {
    seq(|s|, i requires 0 <= i < |s| => f(s[i]))
  }

  lemma MapMember<A, B>(s: seq<A>, f: A -> B, x: A)
    requires x in s
    ensures f(x) in Map(s, f)
  {
    var k :| 0 <= k < |s| && s[k] == x;
    assert Map(s, f)[k] == f(x);
  }

  lemma MapSnoc<A, B>(s: seq<A>, x: A, f: A -> B)
    ensures Map(s + [x], f) == Map(s, f) + [f(x)]
  {
  }
}
