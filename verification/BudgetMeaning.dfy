/** What a collaboration budget admits, said over the reports of the attempts themselves. */
module BudgetMeaning {
  import opened Basics
  import opened Counting
  import opened Budget

  predicate GivesTokens(r: Option<CallUsage>) { r.Some? && r.value.tokens.Some? }

  predicate GivesMoney(r: Option<CallUsage>) { r.Some? && r.value.money.Some? }

  /** One unit for each reported token. */
  ghost function TokenUnits(reports: Reports): set<(nat, nat)> {
    set i: nat, u: nat | i < |reports| && GivesTokens(reports[i]) && u < reports[i].value.tokens.value :: (i, u)
  }

  lemma {:induction false} TokensAreUnits(reports: Reports)
    ensures SumTokens(reports) == |TokenUnits(reports)|
  {
    var amount: Option<CallUsage> -> nat := (r: Option<CallUsage>) => if GivesTokens(r) then r.value.tokens.value else 0;
    UnitsCount(reports, amount);
    assert Units(reports, amount) == TokenUnits(reports);
    if reports != [] {
      var before := reports[..|reports| - 1];
      TokensAreUnits(before);
      assert Units(before, amount) == TokenUnits(before);
    }
  }

  /** The money of some attempts and some others is theirs together, that of one attempt what it
      reported. */
  lemma {:induction false} MoneyIsWhatWasReported(a: Reports, b: Reports, r: Option<CallUsage>)
    ensures SumMoney([]) == 0.0 && SumMoney([r]) == if GivesMoney(r) then r.value.money.value else 0.0
    ensures SumMoney(a + b) == SumMoney(a) + SumMoney(b)
    decreases |b|
  {
    assert [r][..0] == [];
    if b == [] {
      assert a + b == a;
    } else {
      var n := |b| - 1;
      MoneyIsWhatWasReported(a, b[..n], r);
      assert (a + b)[..|a + b| - 1] == a + b[..n];
    }
  }

  /** Attempts are admitted while every limit leaves room for one more unit, and a result is
      applied while no limit is exceeded. A limit in tokens or money asks every attempt for its
      report, and tokens must be exact. */
  lemma FitsMeans(limits: Option<Limits>, reports: Reports, admitting: bool)
    ensures Fits(limits, reports, admitting) <==>
      (limits.Some? ==>
         var next := if admitting then 1 else 0;
         && (limits.value.calls.Some? ==> |reports| + next <= limits.value.calls.value)
         && (limits.value.tokens.Some? ==>
               && (forall r :: r in reports ==> GivesTokens(r))
               && |TokenUnits(reports)| <= MAX_SAFE_INTEGER && |TokenUnits(reports)| + next <= limits.value.tokens.value)
         && (limits.value.money.Some? ==>
               && (forall r :: r in reports ==> GivesMoney(r))
               && SumMoney(reports) <= limits.value.money.value && (admitting ==> SumMoney(reports) != limits.value.money.value)))
  {
    TokensAreUnits(reports);
    assert forall i :: 0 <= i < |reports| ==> reports[i] in reports;
  }
}
