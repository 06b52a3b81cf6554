/** Values shared by every module: optional values, results and the few sequence
    helpers that stand for `new Set`, `filter` and `find` on arrays. */
module Basics {

  datatype Option<+T> = None | Some(value: T)

  datatype Result<+T, +E> = Ok(value: T) | Err(error: E)

  /** Identifiers are opaque strings. */
  type Id = string

  /** Instants are integer milliseconds. */
  type Time = int

  function Max(a: int, b: int): int { if a < b then b else a }

  function Min(a: int, b: int): int { if a < b then a else b }

  /** `[...new Set(xs)]`: first occurrences, in order. */
  function Distinct<T(==)>(xs: seq<T>): seq<T> {
    if xs == [] then []
    else
      var rest, x := Distinct(xs[..|xs| - 1]), xs[|xs| - 1];
      if x in rest then rest else rest + [x]
  }

  /** `xs.reverse().find(p)`. */
  function FindLast<T>(xs: seq<T>, p: T -> bool): Option<T> {
    if xs == [] then None
    else if p(xs[|xs| - 1]) then Some(xs[|xs| - 1])
    else FindLast(xs[..|xs| - 1], p)
  }

  ghost predicate NoDuplicates<T>(xs: seq<T>) {
    forall i, j :: 0 <= i < j < |xs| ==> xs[i] != xs[j]
  }

  lemma DistinctGrows<T>(xs: seq<T>, x: T)
    requires NoDuplicates(xs) && x !in xs
    ensures NoDuplicates(xs + [x])
  {
    forall i, j | 0 <= i < j < |xs| + 1 ensures (xs + [x])[i] != (xs + [x])[j] { assert xs[i] in xs; }
  }

  lemma {:induction false} DistinctKeepsMembers<T>(xs: seq<T>)
    ensures NoDuplicates(Distinct(xs))
    ensures forall x :: x in Distinct(xs) <==> x in xs
  {
    if xs != [] {
      var front := xs[..|xs| - 1];
      DistinctKeepsMembers(front);
      assert xs == front + [xs[|xs| - 1]];
    }
  }

  ghost function Members<T(!new)>(xs: seq<T>): set<T> { set x | x in xs }

  lemma {:induction false} MembersCount<T(!new)>(xs: seq<T>)
    ensures |Members(xs)| <= |xs|
    ensures |Members(xs)| == |xs| <==> NoDuplicates(xs)
  {
    if xs != [] {
      var front, last := xs[..|xs| - 1], xs[|xs| - 1];
      MembersCount(front);
      assert Members(xs) == Members(front) + {last};
      if last in front {
        var i :| 0 <= i < |front| && front[i] == last;
        assert xs[i] == xs[|xs| - 1];
        assert Members(xs) == Members(front);
      } else if NoDuplicates(front) {
        forall i, j | 0 <= i < j < |xs| ensures xs[i] != xs[j] { assert front[i] in front; }
      } else {
        var i, j :| 0 <= i < j < |front| && front[i] == front[j];
        assert xs[i] == xs[j];
      }
    }
  }

  /** Distinct elements of `ys` are at most as many as `ys`, and as many exactly when they are all
      of them and `ys` repeats none. */
  lemma Pigeonhole<T(!new)>(xs: seq<T>, ys: seq<T>)
    requires NoDuplicates(xs) && forall x :: x in xs ==> x in ys
    ensures |xs| <= |ys|
    ensures |xs| == |ys| <==> NoDuplicates(ys) && forall y :: y in ys ==> y in xs
  {
    MembersCount(xs);
    MembersCount(ys);
    var rest := Members(ys) - Members(xs);
    assert Members(ys) == Members(xs) + rest;
    assert (forall y :: y in ys ==> y in xs) ==> rest == {};
    if |xs| == |ys| {
      assert rest == {};
      forall y | y in ys ensures y in xs { assert y in Members(ys); }
    }
  }
}
