/** What the window totals of `channelDigestCost` count, said over the runs, calls, receipts and
    instants themselves. */
module DigestMeaning {
  import opened Basics
  import opened Counting
  import opened DigestCost

  // ---------------------------------------------------------------- totals as cardinalities

  lemma {:induction false} TotalCountsUnits<T>(xs: seq<T>, amount: T -> nat)
    ensures Total(xs, amount) == |Units(xs, amount)|
  {
    UnitsCount(xs, amount);
    if xs != [] { TotalCountsUnits(xs[..|xs| - 1], amount); }
  }

  /** A total of ones and zeros counts the items that hold. */
  lemma {:induction false} TotalCountsItems<T>(xs: seq<T>, amount: T -> nat, holds: T -> bool)
    requires forall x :: x in xs ==> amount(x) == if holds(x) then 1 else 0
    ensures Total(xs, amount) == |Holding(xs, holds)|
  {
    HoldingCount(xs, holds);
    if xs != [] {
      assert xs[|xs| - 1] in xs;
      TotalCountsItems(xs[..|xs| - 1], amount, holds);
    }
  }

  // ---------------------------------------------------------------- one run in one window

  /** The run has started at t and has not ended. */
  predicate Executing(run: Run, t: Time) {
    && run.start.Some? && run.start.value <= t
    && (run.end.Some? ==> t < run.end.value)
  }

  predicate StartedWithin(c: Call, from: Time, till: Time) { c.startedAt.Some? && from <= c.startedAt.value && c.startedAt.value < till }

  /** The run time is the number of instants of the window at which the run was executing, a run
      without an end executing to the end of the window. */
  lemma InsideCountsInstants(run: Run, from: Time, till: Time)
    ensures Inside(run, from, till) == |set t | from <= t < till && Executing(run, t)|
    ensures Inside(run, from, till) > 0 <==> exists t :: from <= t < till && Executing(run, t)
  {
    var here := set t | from <= t < till && Executing(run, t);
    if run.start.None? {
      assert here == {};
    } else {
      var a, b := Max(run.start.value, from), if run.end.Some? then Min(run.end.value, till) else till;
      if a < b {
        IntervalSize(a, b);
        assert here == set t | a <= t < b && Between(t, a, b);
        assert a in here;
      } else {
        assert here == {};
      }
    }
    assert |here| > 0 <==> here != {};
  }

  /** Tokens are those that the calls started within the window reported; unreported are the
      completed calls of the window without tokens; credits are those of the completed receipts
      of the window. */
  lemma RunTotalsMean(run: Run, from: Time, till: Time)
    ensures TokensIn(run.calls, from, till) ==
      |set k: nat, u: nat | k < |run.calls| && StartedWithin(run.calls[k], from, till)
         && run.calls[k].tokens.Some? && u < run.calls[k].tokens.value :: (k, u)|
    ensures AllTokens(run.calls) ==
      |set k: nat, u: nat | k < |run.calls| && run.calls[k].tokens.Some? && u < run.calls[k].tokens.value :: (k, u)|
    ensures UnreportedIn(run.calls, from, till) ==
      |set k: nat | k < |run.calls| && StartedWithin(run.calls[k], from, till) && run.calls[k].completed && run.calls[k].tokens.None?|
    ensures CreditsIn(run.receipts, from, till) ==
      |set k: nat, u: nat | k < |run.receipts| && run.receipts[k].completed && run.receipts[k].at.Some?
         && from <= run.receipts[k].at.value < till && run.receipts[k].credits.Some? && u < run.receipts[k].credits.value :: (k, u)|
  {
    TokensMean(run.calls, from, till);
    UnreportedMeans(run.calls, from, till);
    CreditsMean(run.receipts, from, till);
  }

  lemma TokensMean(calls: seq<Call>, from: Time, till: Time)
    ensures TokensIn(calls, from, till) ==
      |set k: nat, u: nat | k < |calls| && StartedWithin(calls[k], from, till) && calls[k].tokens.Some? && u < calls[k].tokens.value :: (k, u)|
    ensures AllTokens(calls) == |set k: nat, u: nat | k < |calls| && calls[k].tokens.Some? && u < calls[k].tokens.value :: (k, u)|
  {
    var inside := (c: Call) => if InWindow(c.startedAt, from, till) then CallTokens(c) else 0;
    TotalCountsUnits(calls, inside);
    assert Units(calls, inside) ==
      set k: nat, u: nat | k < |calls| && StartedWithin(calls[k], from, till) && calls[k].tokens.Some? && u < calls[k].tokens.value :: (k, u);
    var every := (c: Call) => CallTokens(c);
    TotalCountsUnits(calls, every);
    assert Units(calls, every) == set k: nat, u: nat | k < |calls| && calls[k].tokens.Some? && u < calls[k].tokens.value :: (k, u);
  }

  lemma UnreportedMeans(calls: seq<Call>, from: Time, till: Time)
    ensures UnreportedIn(calls, from, till) ==
      |set k: nat | k < |calls| && StartedWithin(calls[k], from, till) && calls[k].completed && calls[k].tokens.None?|
  {
    var counted := (c: Call) => InWindow(c.startedAt, from, till) && c.completed && c.tokens.None?;
    TotalCountsItems(calls, (c: Call) => if InWindow(c.startedAt, from, till) && c.completed && c.tokens.None? then 1 else 0, counted);
    assert Holding(calls, counted) ==
      set k: nat | k < |calls| && StartedWithin(calls[k], from, till) && calls[k].completed && calls[k].tokens.None?;
  }

  lemma CreditsMean(receipts: seq<ToolReceipt>, from: Time, till: Time)
    ensures CreditsIn(receipts, from, till) ==
      |set k: nat, u: nat | k < |receipts| && receipts[k].completed && receipts[k].at.Some?
         && from <= receipts[k].at.value < till && receipts[k].credits.Some? && u < receipts[k].credits.value :: (k, u)|
  {
    var amount: ToolReceipt -> nat := (r: ToolReceipt) => if r.completed && InWindow(r.at, from, till) && r.credits.Some? then r.credits.value else 0;
    TotalCountsUnits(receipts, amount);
    assert Units(receipts, amount) ==
      set k: nat, u: nat | k < |receipts| && receipts[k].completed && receipts[k].at.Some?
        && from <= receipts[k].at.value < till && receipts[k].credits.Some? && u < receipts[k].credits.value :: (k, u);
  }

  // ---------------------------------------------------------------- all runs in one window

  lemma ExecutedMeans(runs: seq<Run>, from: Time, till: Time)
    ensures Total(runs, (r: Run) => if Inside(r, from, till) > 0 then 1 else 0) ==
      |set i: nat | i < |runs| && (exists t :: from <= t < till && Executing(runs[i], t))|
    ensures Total(runs, (r: Run) => Inside(r, from, till)) == |Units(runs, (r: Run) => Inside(r, from, till))|
  {
    var counted := (r: Run) => Inside(r, from, till) > 0;
    TotalCountsItems(runs, (r: Run) => if Inside(r, from, till) > 0 then 1 else 0, counted);
    forall r: Run ensures Inside(r, from, till) > 0 <==> exists t :: from <= t < till && Executing(r, t) { InsideCountsInstants(r, from, till); }
    assert Holding(runs, counted) ==
      set i: nat | i < |runs| && (exists t :: from <= t < till && Executing(runs[i], t));
    TotalCountsUnits(runs, (r: Run) => Inside(r, from, till));
  }

  lemma AcceptedMeans(accepts: seq<Option<Time>>, from: Time, till: Time)
    ensures AcceptedIn(accepts, from, till) == |set i: nat | i < |accepts| && accepts[i].Some? && from <= accepts[i].value < till|
  {
    var counted := (at: Option<Time>) => InWindow(at, from, till);
    TotalCountsItems(accepts, (at: Option<Time>) => if InWindow(at, from, till) then 1 else 0, counted);
    assert Holding(accepts, counted) ==
      set i: nat | i < |accepts| && accepts[i].Some? && from <= accepts[i].value < till;
  }

  /** The digest's runs are those that executed at some instant of the window, its acceptances the
      ones dated within it, and every other total has one unit for each unit of a run's own. */
  lemma DigestMeans(runs: seq<Run>, accepts: seq<Option<Time>>, from: Time, till: Time)
    ensures var cost := CostIn(runs, accepts, from, till);
      && cost.runs == |set i: nat | i < |runs| && (exists t :: from <= t < till && Executing(runs[i], t))|
      && cost.accepted == |set i: nat | i < |accepts| && accepts[i].Some? && from <= accepts[i].value < till|
      && cost.runTime == |Units(runs, (r: Run) => Inside(r, from, till))|
      && cost.tokens == |Units(runs, (r: Run) => TokensIn(r.calls, from, till))|
      && cost.credits == |Units(runs, (r: Run) => CreditsIn(r.receipts, from, till))|
      && cost.unreportedCalls == |Units(runs, (r: Run) => UnreportedIn(r.calls, from, till))|
      && (cost.money.Some? <==> exists r :: r in runs && r.price.Some? && exists c :: c in r.calls && c.tokens.Some? && c.tokens.value > 0)
  {
    ExecutedMeans(runs, from, till);
    AcceptedMeans(accepts, from, till);
    TotalCountsUnits(runs, (r: Run) => TokensIn(r.calls, from, till));
    TotalCountsUnits(runs, (r: Run) => CreditsIn(r.receipts, from, till));
    TotalCountsUnits(runs, (r: Run) => UnreportedIn(r.calls, from, till));
    forall r: Run ensures Priced(r) <==> r.price.Some? && exists c :: c in r.calls && c.tokens.Some? && c.tokens.value > 0 { SpentSomething(r.calls); }
    if exists r :: r in runs && r.price.Some? && exists c :: c in r.calls && c.tokens.Some? && c.tokens.value > 0 {
      var r :| r in runs && r.price.Some? && exists c :: c in r.calls && c.tokens.Some? && c.tokens.value > 0;
      var i :| 0 <= i < |runs| && runs[i] == r;
      assert Priced(runs[i]);
    }
  }

  lemma {:induction false} SpentSomething(calls: seq<Call>)
    ensures AllTokens(calls) > 0 <==> exists c :: c in calls && c.tokens.Some? && c.tokens.value > 0
  {
    if calls != [] {
      var n := |calls| - 1;
      assert calls == calls[..n] + [calls[n]];
      SpentSomething(calls[..n]);
    }
  }

  // ---------------------------------------------------------------- money

  /** A priced run pays for a window in proportion to the tokens of the calls started in it: the
      whole price when the window holds every call that reported tokens, and nothing when it holds
      none. A run without a price, or without tokens, pays nothing. */
  lemma MoneyIsTheShare(run: Run, from: Time, till: Time)
    ensures run.price.None? || AllTokens(run.calls) == 0 ==> MoneyOf(run, from, till) == 0.0
    ensures run.price.Some? && AllTokens(run.calls) > 0
            ==> MoneyOf(run, from, till) * AllTokens(run.calls) as real == run.price.value * TokensIn(run.calls, from, till) as real
    ensures run.price.Some? && AllTokens(run.calls) > 0
              && (forall c :: c in run.calls && c.tokens.Some? && c.tokens.value > 0 ==> StartedWithin(c, from, till))
            ==> MoneyOf(run, from, till) == run.price.value
    ensures (forall c :: c in run.calls && StartedWithin(c, from, till) ==> c.tokens.None? || c.tokens.value == 0)
            ==> MoneyOf(run, from, till) == 0.0
  {
    if forall c :: c in run.calls && c.tokens.Some? && c.tokens.value > 0 ==> StartedWithin(c, from, till) {
      AllWithin(run.calls, from, till);
    }
    if forall c :: c in run.calls && StartedWithin(c, from, till) ==> c.tokens.None? || c.tokens.value == 0 {
      NoneWithin(run.calls, from, till);
    }
  }

  lemma {:induction false} AllWithin(calls: seq<Call>, from: Time, till: Time)
    requires forall c :: c in calls && c.tokens.Some? && c.tokens.value > 0 ==> StartedWithin(c, from, till)
    ensures TokensIn(calls, from, till) == AllTokens(calls)
  {
    if calls != [] {
      assert calls[|calls| - 1] in calls;
      AllWithin(calls[..|calls| - 1], from, till);
    }
  }

  lemma {:induction false} NoneWithin(calls: seq<Call>, from: Time, till: Time)
    requires forall c :: c in calls && StartedWithin(c, from, till) ==> c.tokens.None? || c.tokens.value == 0
    ensures TokensIn(calls, from, till) == 0
  {
    if calls != [] {
      assert calls[|calls| - 1] in calls;
      NoneWithin(calls[..|calls| - 1], from, till);
    }
  }

  /** The money of some runs and some others is theirs together; that of one run is its own. */
  lemma {:induction false} MoneyIsShared(a: seq<Run>, b: seq<Run>, r: Run, from: Time, till: Time)
    ensures MoneyIn([], from, till) == 0.0 && MoneyIn([r], from, till) == MoneyOf(r, from, till)
    ensures MoneyIn(a + b, from, till) == MoneyIn(a, from, till) + MoneyIn(b, from, till)
    decreases |b|
  {
    assert [r][..0] == [];
    if b == [] {
      assert a + b == a;
    } else {
      var n := |b| - 1;
      MoneyIsShared(a, b[..n], r, from, till);
      assert (a + b)[..|a + b| - 1] == a + b[..n];
    }
  }
}
