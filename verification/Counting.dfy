/** Counting by cardinality: intervals, the units of a total and the items that hold. */
module Counting {
  import opened Basics

  predicate Between(t: Time, from: Time, till: Time) { from <= t < till }

  lemma {:induction false} IntervalSize(from: Time, till: Time)
    requires from <= till
    ensures |set t | from <= t < till && Between(t, from, till)| == till - from
    decreases till - from
  {
    var here := set t | from <= t < till && Between(t, from, till);
    if from == till {
      assert here == {};
    } else {
      var last := till - 1;
      IntervalSize(from, last);
      assert here == (set t | from <= t < last && Between(t, from, last)) + {last};
    }
  }

  /** The units (i, u) of a total: u counts what item i contributes. */
  ghost function Units<T>(xs: seq<T>, amount: T -> nat): set<(nat, nat)> {
    set i: nat, u: nat | i < |xs| && u < amount(xs[i]) :: (i, u)
  }

  ghost function Column(i: nat, n: nat): set<(nat, nat)> { set u: nat | u < n :: (i, u) }

  lemma {:induction false} ColumnSize(i: nat, n: nat)
    ensures |Column(i, n)| == n
  {
    if n == 0 {
      assert Column(i, n) == {};
    } else {
      ColumnSize(i, n - 1);
      assert Column(i, n) == Column(i, n - 1) + {(i, n - 1)};
    }
  }

  lemma UnitsGrow<T>(xs: seq<T>, n: nat, amount: T -> nat)
    requires |xs| == n + 1
    ensures Units(xs, amount) == Units(xs[..n], amount) + Column(n, amount(xs[n]))
    ensures Units(xs[..n], amount) !! Column(n, amount(xs[n]))
  {
    var before := xs[..n];
    assert forall i :: 0 <= i < n ==> before[i] == xs[i];
    forall p | p in Units(xs, amount) ensures p in Units(before, amount) + Column(n, amount(xs[n])) {
      if p.0 < n { assert before[p.0] == xs[p.0]; }
    }
  }

  lemma UnitsCount<T>(xs: seq<T>, amount: T -> nat)
    ensures |Units(xs, amount)| == if xs == [] then 0 else |Units(xs[..|xs| - 1], amount)| + amount(xs[|xs| - 1])
  {
    if xs == [] {
      assert Units(xs, amount) == {};
    } else {
      var n := |xs| - 1;
      UnitsGrow(xs, n, amount);
      ColumnSize(n, amount(xs[n]));
    }
  }

  ghost function Holding<T>(xs: seq<T>, holds: T -> bool): set<nat> { set i: nat | i < |xs| && holds(xs[i]) }

  lemma HoldingGrows<T>(xs: seq<T>, n: nat, holds: T -> bool)
    requires |xs| == n + 1
    ensures n !in Holding(xs[..n], holds)
    ensures Holding(xs, holds) == Holding(xs[..n], holds) + (if holds(xs[n]) then {n} else {})
  {
    assert forall i :: 0 <= i < n ==> xs[..n][i] == xs[i];
  }

  lemma HoldingCount<T>(xs: seq<T>, holds: T -> bool)
    ensures |Holding(xs, holds)| == if xs == [] then 0 else |Holding(xs[..|xs| - 1], holds)| + (if holds(xs[|xs| - 1]) then 1 else 0)
  {
    if xs == [] {
      assert Holding(xs, holds) == {};
    } else {
      HoldingGrows(xs, |xs| - 1, holds);
    }
  }
}
