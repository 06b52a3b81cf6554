/** The window totals of `channelDigestCost` in src/channel-digest.ts and the execution span of
    src/channel-metrics.ts. Times that do not parse are None. */
module DigestCost {
  import opened Basics

  datatype Call = Call(startedAt: Option<Time>, completed: bool, tokens: Option<nat>)

  datatype ToolReceipt = ToolReceipt(completed: bool, at: Option<Time>, credits: Option<nat>)

  /** A run that never started has no start; one still executing has no end. The price is that of
      all its calls. */
  datatype Run = Run(calls: seq<Call>, receipts: seq<ToolReceipt>, start: Option<Time>, end: Option<Time>, price: Option<real>)

  /** Money is exact: the source rounds it to four decimals at the end. */
  datatype Cost = Cost(runs: nat, runTime: nat, accepted: nat, tokens: nat, credits: nat, unreportedCalls: nat, money: Option<real>)

  predicate InWindow(at: Option<Time>, from: Time, till: Time) { at.Some? && from <= at.value < till }

  function CallTokens(c: Call): nat { if c.tokens.Some? then c.tokens.value else 0 }

  /** Sums a per-item amount over a sequence. */
  function Total<T>(xs: seq<T>, amount: T -> nat): nat {
    if xs == [] then 0 else Total(xs[..|xs| - 1], amount) + amount(xs[|xs| - 1])
  }

  lemma {:induction false} TotalAdds<T>(xs: seq<T>, whole: T -> nat, left: T -> nat, right: T -> nat)
    requires forall x :: x in xs ==> whole(x) == left(x) + right(x)
    ensures Total(xs, whole) == Total(xs, left) + Total(xs, right)
  {
    if xs != [] {
      TotalAdds(xs[..|xs| - 1], whole, left, right);
      assert xs[|xs| - 1] in xs;
    }
  }

  // ---------------------------------------------------------------- one run in one window

  /** The instants of [from, till) during which the run executed. */
  function Inside(run: Run, from: Time, till: Time): nat {
    if run.start.None? then 0
    else
      var end := if run.end.Some? then run.end.value else till;
      Max(0, Min(end, till) - Max(run.start.value, from))
  }

  function TokensIn(calls: seq<Call>, from: Time, till: Time): nat {
    Total(calls, (c: Call) => if InWindow(c.startedAt, from, till) then CallTokens(c) else 0)
  }

  function AllTokens(calls: seq<Call>): nat { Total(calls, (c: Call) => CallTokens(c)) }

  predicate Priced(run: Run) { run.price.Some? && AllTokens(run.calls) > 0 }

  /** The window's share of a run's price, by its tokens. */
  function MoneyOf(run: Run, from: Time, till: Time): real {
    if Priced(run) then run.price.value * TokensIn(run.calls, from, till) as real / AllTokens(run.calls) as real else 0.0
  }

  function TotalReal<T>(xs: seq<T>, amount: T -> real): real {
    if xs == [] then 0.0 else TotalReal(xs[..|xs| - 1], amount) + amount(xs[|xs| - 1])
  }

  lemma {:induction false} TotalRealAdds<T>(xs: seq<T>, whole: T -> real, left: T -> real, right: T -> real)
    requires forall x :: x in xs ==> whole(x) == left(x) + right(x)
    ensures TotalReal(xs, whole) == TotalReal(xs, left) + TotalReal(xs, right)
  {
    if xs != [] {
      TotalRealAdds(xs[..|xs| - 1], whole, left, right);
      assert xs[|xs| - 1] in xs;
    }
  }

  function MoneyIn(runs: seq<Run>, from: Time, till: Time): real { TotalReal(runs, (r: Run) => MoneyOf(r, from, till)) }

  predicate AnyPriced(runs: seq<Run>) { exists i :: 0 <= i < |runs| && Priced(runs[i]) }

  function UnreportedIn(calls: seq<Call>, from: Time, till: Time): nat {
    Total(calls, (c: Call) => if InWindow(c.startedAt, from, till) && c.completed && c.tokens.None? then 1 else 0)
  }

  function CreditsIn(receipts: seq<ToolReceipt>, from: Time, till: Time): nat {
    Total(receipts, (r: ToolReceipt) =>
      if r.completed && InWindow(r.at, from, till) && r.credits.Some? then r.credits.value else 0)
  }

  function AcceptedIn(accepts: seq<Option<Time>>, from: Time, till: Time): nat {
    Total(accepts, (at: Option<Time>) => if InWindow(at, from, till) then 1 else 0)
  }

  function CostIn(runs: seq<Run>, accepts: seq<Option<Time>>, from: Time, till: Time): Cost {
    Cost(Total(runs, (r: Run) => if Inside(r, from, till) > 0 then 1 else 0),
         Total(runs, (r: Run) => Inside(r, from, till)),
         AcceptedIn(accepts, from, till),
         Total(runs, (r: Run) => TokensIn(r.calls, from, till)),
         Total(runs, (r: Run) => CreditsIn(r.receipts, from, till)),
         Total(runs, (r: Run) => UnreportedIn(r.calls, from, till)),
         if AnyPriced(runs) then Some(MoneyIn(runs, from, till)) else None)
  }

  method ChannelDigestCost(runs: seq<Run>, accepts: seq<Option<Time>>, from: Time, till: Time) returns (cost: Cost)
    ensures cost == CostIn(runs, accepts, from, till)
  {
    var count: nat, time: nat, tokens: nat, credits: nat, unreported: nat := 0, 0, 0, 0, 0;
    var money, priced := 0.0, false;
    for i := 0 to |runs|
      invariant Cost(count, time, 0, tokens, credits, unreported, None) == CostIn(runs[..i], accepts, from, till).(accepted := 0, money := None)
      invariant money == MoneyIn(runs[..i], from, till) && (priced <==> AnyPriced(runs[..i]))
    {
      assert runs[..i + 1][..i] == runs[..i];
      var inside := Inside(runs[i], from, till);
      if inside > 0 { count, time := count + 1, time + inside; }
      tokens := tokens + TokensIn(runs[i].calls, from, till);
      unreported := unreported + UnreportedIn(runs[i].calls, from, till);
      PricedGrows(runs, i);
      if Priced(runs[i]) { priced, money := true, money + MoneyOf(runs[i], from, till); }
      credits := credits + CreditsIn(runs[i].receipts, from, till);
    }
    assert runs[..|runs|] == runs;
    cost := Cost(count, time, AcceptedIn(accepts, from, till), tokens, credits, unreported, if priced then Some(money) else None);
  }

  lemma PricedGrows(runs: seq<Run>, i: nat)
    requires i < |runs|
    ensures AnyPriced(runs[..i + 1]) <==> AnyPriced(runs[..i]) || Priced(runs[i])
  {
    var before, after := runs[..i], runs[..i + 1];
    assert after[i] == runs[i] && forall k :: 0 <= k < i ==> after[k] == before[k];
    if AnyPriced(before) {
      var k :| 0 <= k < |before| && Priced(before[k]);
      assert Priced(after[k]);
    }
    if AnyPriced(after) {
      var k :| 0 <= k < |after| && Priced(after[k]);
      assert k < i ==> Priced(before[k]);
    }
    if Priced(runs[i]) { assert Priced(after[i]); }
  }

  // ---------------------------------------------------------------- adjacent windows

  lemma InsideAdds(r: Run, from: Time, mid: Time, till: Time)
    requires from <= mid <= till
    ensures Inside(r, from, till) == Inside(r, from, mid) + Inside(r, mid, till)
  {}

  lemma CallsAdd(calls: seq<Call>, from: Time, mid: Time, till: Time)
    requires from <= mid <= till
    ensures TokensIn(calls, from, till) == TokensIn(calls, from, mid) + TokensIn(calls, mid, till)
    ensures UnreportedIn(calls, from, till) == UnreportedIn(calls, from, mid) + UnreportedIn(calls, mid, till)
  {
    TotalAdds(calls,
              (c: Call) => if InWindow(c.startedAt, from, till) then CallTokens(c) else 0,
              (c: Call) => if InWindow(c.startedAt, from, mid) then CallTokens(c) else 0,
              (c: Call) => if InWindow(c.startedAt, mid, till) then CallTokens(c) else 0);
    TotalAdds(calls,
              (c: Call) => if InWindow(c.startedAt, from, till) && c.completed && c.tokens.None? then 1 else 0,
              (c: Call) => if InWindow(c.startedAt, from, mid) && c.completed && c.tokens.None? then 1 else 0,
              (c: Call) => if InWindow(c.startedAt, mid, till) && c.completed && c.tokens.None? then 1 else 0);
  }

  lemma CreditsAdd(receipts: seq<ToolReceipt>, from: Time, mid: Time, till: Time)
    requires from <= mid <= till
    ensures CreditsIn(receipts, from, till) == CreditsIn(receipts, from, mid) + CreditsIn(receipts, mid, till)
  {
    TotalAdds(receipts,
              (r: ToolReceipt) => if r.completed && InWindow(r.at, from, till) && r.credits.Some? then r.credits.value else 0,
              (r: ToolReceipt) => if r.completed && InWindow(r.at, from, mid) && r.credits.Some? then r.credits.value else 0,
              (r: ToolReceipt) => if r.completed && InWindow(r.at, mid, till) && r.credits.Some? then r.credits.value else 0);
  }

  lemma AcceptedAdd(accepts: seq<Option<Time>>, from: Time, mid: Time, till: Time)
    requires from <= mid <= till
    ensures AcceptedIn(accepts, from, till) == AcceptedIn(accepts, from, mid) + AcceptedIn(accepts, mid, till)
  {
    TotalAdds(accepts,
              (at: Option<Time>) => if InWindow(at, from, till) then 1 else 0,
              (at: Option<Time>) => if InWindow(at, from, mid) then 1 else 0,
              (at: Option<Time>) => if InWindow(at, mid, till) then 1 else 0);
  }

  lemma SharesAdd(price: real, left: nat, right: nat, all: nat)
    requires all > 0
    ensures price * (left + right) as real / all as real == price * left as real / all as real + price * right as real / all as real
  {
    assert price * (left + right) as real == price * left as real + price * right as real;
  }

  lemma MoneyOfAdds(r: Run, from: Time, mid: Time, till: Time)
    requires from <= mid <= till
    ensures MoneyOf(r, from, till) == MoneyOf(r, from, mid) + MoneyOf(r, mid, till)
  {
    CallsAdd(r.calls, from, mid, till);
    if Priced(r) { SharesAdd(r.price.value, TokensIn(r.calls, from, mid), TokensIn(r.calls, mid, till), AllTokens(r.calls)); }
  }

  lemma MoneyAdds(runs: seq<Run>, from: Time, mid: Time, till: Time)
    requires from <= mid <= till
    ensures MoneyIn(runs, from, till) == MoneyIn(runs, from, mid) + MoneyIn(runs, mid, till)
  {
    var whole, left, right := (r: Run) => MoneyOf(r, from, till), (r: Run) => MoneyOf(r, from, mid), (r: Run) => MoneyOf(r, mid, till);
    forall r: Run | r in runs ensures whole(r) == left(r) + right(r) { MoneyOfAdds(r, from, mid, till); }
    TotalRealAdds(runs, whole, left, right);
  }

  predicate Straddles(r: Run, from: Time, mid: Time, till: Time) { Inside(r, from, mid) > 0 && Inside(r, mid, till) > 0 }

  /** Run time, tokens, credits, money before rounding, unreported calls and acceptances of two adjacent windows add up
      to those of the joined window, even for runs still executing; the number of runs exceeds
      the joined one by exactly the runs that executed in both. */
  lemma AdjacentWindowsAdd(runs: seq<Run>, accepts: seq<Option<Time>>, from: Time, mid: Time, till: Time)
    requires from <= mid <= till
    ensures var whole, left, right := CostIn(runs, accepts, from, till), CostIn(runs, accepts, from, mid), CostIn(runs, accepts, mid, till);
      && whole.runTime == left.runTime + right.runTime
      && whole.tokens == left.tokens + right.tokens
      && whole.credits == left.credits + right.credits
      && whole.unreportedCalls == left.unreportedCalls + right.unreportedCalls
      && whole.accepted == left.accepted + right.accepted
      && (whole.money.Some? <==> left.money.Some?) && (whole.money.Some? <==> right.money.Some?)
      && (whole.money.Some? ==> whole.money.value == left.money.value + right.money.value)
      && whole.runs + Total(runs, (r: Run) => if Straddles(r, from, mid, till) then 1 else 0) == left.runs + right.runs
  {
    AcceptedAdd(accepts, from, mid, till);
    forall r: Run | r in runs
      ensures Inside(r, from, till) == Inside(r, from, mid) + Inside(r, mid, till)
      ensures TokensIn(r.calls, from, till) == TokensIn(r.calls, from, mid) + TokensIn(r.calls, mid, till)
      ensures UnreportedIn(r.calls, from, till) == UnreportedIn(r.calls, from, mid) + UnreportedIn(r.calls, mid, till)
      ensures CreditsIn(r.receipts, from, till) == CreditsIn(r.receipts, from, mid) + CreditsIn(r.receipts, mid, till)
    {
      InsideAdds(r, from, mid, till);
      CallsAdd(r.calls, from, mid, till);
      CreditsAdd(r.receipts, from, mid, till);
    }
    TotalAdds(runs, (r: Run) => Inside(r, from, till), (r: Run) => Inside(r, from, mid), (r: Run) => Inside(r, mid, till));
    TotalAdds(runs, (r: Run) => TokensIn(r.calls, from, till), (r: Run) => TokensIn(r.calls, from, mid), (r: Run) => TokensIn(r.calls, mid, till));
    TotalAdds(runs, (r: Run) => CreditsIn(r.receipts, from, till), (r: Run) => CreditsIn(r.receipts, from, mid), (r: Run) => CreditsIn(r.receipts, mid, till));
    TotalAdds(runs, (r: Run) => UnreportedIn(r.calls, from, till), (r: Run) => UnreportedIn(r.calls, from, mid), (r: Run) => UnreportedIn(r.calls, mid, till));
    RunsCount(runs, from, mid, till);
    MoneyAdds(runs, from, mid, till);
  }

  lemma RunsCount(runs: seq<Run>, from: Time, mid: Time, till: Time)
    requires from <= mid <= till
    ensures Total(runs, (r: Run) => if Inside(r, from, till) > 0 then 1 else 0)
              + Total(runs, (r: Run) => if Straddles(r, from, mid, till) then 1 else 0)
            == Total(runs, (r: Run) => if Inside(r, from, mid) > 0 then 1 else 0)
              + Total(runs, (r: Run) => if Inside(r, mid, till) > 0 then 1 else 0)
  {
    var either := (r: Run) => (if Inside(r, from, till) > 0 then 1 else 0) + (if Straddles(r, from, mid, till) then 1 else 0);
    forall r: Run | r in runs
      ensures either(r) == (if Inside(r, from, mid) > 0 then 1 else 0) + (if Inside(r, mid, till) > 0 then 1 else 0)
    {
      InsideAdds(r, from, mid, till);
    }
    TotalAdds(runs, either, (r: Run) => if Inside(r, from, till) > 0 then 1 else 0, (r: Run) => if Straddles(r, from, mid, till) then 1 else 0);
    TotalAdds(runs, either, (r: Run) => if Inside(r, from, mid) > 0 then 1 else 0, (r: Run) => if Inside(r, mid, till) > 0 then 1 else 0);
  }
}
