/** An optional value. */
module Wrappers {
  datatype Option<+T> = None | Some(value: T)
}

/** Sequences with an element taken out. */
module Sequences {

  ghost predicate Distinct<T>(s: seq<T>) { forall i, j :: 0 <= i < j < |s| ==> s[i] != s[j] }

  function RemoveAt<T>(s: seq<T>, i: nat): seq<T>
    requires i < |s|
  {
    s[..i] + s[i + 1..]
  }

  /** Without the first occurrence of `x`. */
  function Without<T(==)>(s: seq<T>, x: T): seq<T> {
    if s == [] then [] else if s[0] == x then s[1..] else [s[0]] + Without(s[1..], x)
  }

  lemma DistinctCons<T>(x: T, s: seq<T>)
    requires Distinct(s) && x !in s
    ensures Distinct([x] + s)
  {
  }

  lemma {:induction false} WithoutFacts<T(!new)>(s: seq<T>, x: T)
    requires Distinct(s)
    ensures Distinct(Without(s, x)) && |Without(s, x)| <= |s|
    ensures forall y :: y in Without(s, x) <==> y in s && y != x
  {
    if s != [] {
      assert s == [s[0]] + s[1..];
      assert s[0] !in s[1..];
      WithoutFacts(s[1..], x);
      if s[0] != x {
        DistinctCons(s[0], Without(s[1..], x));
      }
    }
  }

  lemma WithoutAt<T>(s: seq<T>, i: nat, x: T)
    requires i < |s|
    ensures Without(s[i..], x) == if s[i] == x then s[i + 1..] else [s[i]] + Without(s[i + 1..], x)
  {
    assert s[i..][0] == s[i] && s[i..][1..] == s[i + 1..];
  }

  lemma TailOfJoin<T>(a: seq<T>, b: seq<T>)
    requires a != []
    ensures (a + b)[0] == a[0] && (a + b)[1..] == a[1..] + b
  {
  }

  lemma Associative<T>(a: seq<T>, b: seq<T>, c: seq<T>)
    ensures a + (b + c) == a + b + c
  {
  }

  lemma Shift<T>(s: seq<T>, i: nat, rest: seq<T>)
    requires i < |s|
    ensures s[..i] + ([s[i]] + rest) == s[..i + 1] + rest
  {
  }

  lemma EndsOf<T>(s: seq<T>)
    ensures s[..0] == [] && s[0..] == s && s[..|s|] == s && s[|s|..] == []
  {
  }

  /** A loop that finds the first occurrence and takes it out. */
  method Unlist<T(==)>(s: seq<T>, x: T) returns (r: seq<T>)
    ensures r == Without(s, x)
  {
    EndsOf(s);
    for i := 0 to |s|
      invariant Without(s, x) == s[..i] + Without(s[i..], x)
    {
      WithoutAt(s, i, x);
      Shift(s, i, Without(s[i + 1..], x));
      if s[i] == x {
        return s[..i] + s[i + 1..];
      }
    }
    return s;
  }
}

/** Running extremes of integers, as the code keeps them. */
module Extremes {

  ghost predicate IsMin(s: seq<int>, m: int) { m in s && forall x <- s :: m <= x }
  ghost predicate IsMax(s: seq<int>, m: int) { m in s && forall x <- s :: x <= m }

  /** A running minimum in which `unset` stands for none yet. */
  function Lower(unset: int, least: int, x: int): int { if least == unset || x < least then x else least }

  function Least(unset: int, from: int, s: seq<int>): int {
    if s == [] then from else Lower(unset, Least(unset, from, s[..|s| - 1]), s[|s| - 1])
  }

  function Higher(greatest: int, x: int): int { if x > greatest then x else greatest }

  function Greatest(from: int, s: seq<int>): int {
    if s == [] then from else Higher(Greatest(from, s[..|s| - 1]), s[|s| - 1])
  }

  predicate SomeBelow(bound: int, s: seq<int>) { exists x <- s :: x < bound }

  lemma Snoc(s: seq<int>, bound: int)
    requires s != []
    ensures s[|s| - 1] in s && (forall x <- s[..|s| - 1] :: x in s)
    ensures forall x <- s :: x in s[..|s| - 1] || x == s[|s| - 1]
    ensures SomeBelow(bound, s) <==> SomeBelow(bound, s[..|s| - 1]) || s[|s| - 1] < bound
  {
    var t, x := s[..|s| - 1], s[|s| - 1];
    assert s == t + [x] && forall y <- t :: y in s;
    if SomeBelow(bound, t) {
      var y :| y in t && y < bound;
      assert y in s;
    }
  }

  /** The greatest so far is at least where it started and at least each, and is one of them if not the start. */
  lemma {:induction false} GreatestIs(from: int, s: seq<int>)
    ensures from <= Greatest(from, s) && forall x <- s :: x <= Greatest(from, s)
    ensures Greatest(from, s) == from || Greatest(from, s) in s
  {
    if s != [] {
      Snoc(s, from);
      GreatestIs(from, s[..|s| - 1]);
    }
  }

  /** A running maximum is the maximum exactly when one element reaches the value it starts with. */
  lemma GreatestExactIff(from: int, s: seq<int>)
    ensures IsMax(s, Greatest(from, s)) <==> exists x <- s :: from <= x
  {
    GreatestIs(from, s);
  }

  /** A minimum below `unset` is never taken for none. */
  lemma {:induction false} BelowStays(unset: int, s: seq<int>)
    ensures SomeBelow(unset, s) <==> Least(unset, unset, s) < unset
    ensures SomeBelow(unset, s) ==> IsMin(s, Least(unset, unset, s))
  {
    if s != [] {
      Snoc(s, unset);
      BelowStays(unset, s[..|s| - 1]);
    }
  }

  /** Without `unset` among them no minimum is ever forgotten. */
  lemma {:induction false} NeverForgotten(unset: int, s: seq<int>)
    requires s != [] && unset !in s
    ensures IsMin(s, Least(unset, unset, s))
  {
    Snoc(s, unset);
    if |s| > 1 {
      NeverForgotten(unset, s[..|s| - 1]);
    }
  }

  /** With nothing below it, the minimum reads as none exactly when the last element does. */
  lemma UnsetOnlyLast(unset: int, s: seq<int>)
    requires s != [] && forall x <- s :: unset <= x
    ensures Least(unset, unset, s) == unset <==> s[|s| - 1] == unset
  {
    Snoc(s, unset);
    BelowStays(unset, s[..|s| - 1]);
  }

  /**
   A running minimum is the minimum exactly when an element lies below the mark for
   none, or no element equals the mark, or the last one does.
   */
  lemma LeastExactIff(unset: int, s: seq<int>)
    requires s != []
    ensures IsMin(s, Least(unset, unset, s)) <==>
            SomeBelow(unset, s) || unset !in s || s[|s| - 1] == unset
  {
    BelowStays(unset, s);
    if forall x <- s :: unset <= x {
      UnsetOnlyLast(unset, s);
      Snoc(s, unset);
      if unset !in s {
        NeverForgotten(unset, s);
      }
    }
  }
}
