/** Usage totals and budget admission of src/collaboration-budget.ts. Money is exact. */
module Budget {
  import opened Basics
  import opened Counting

  datatype CallUsage = CallUsage(tokens: Option<nat>, money: Option<real>)

  datatype Limits = Limits(calls: Option<nat>, tokens: Option<nat>, money: Option<real>)

  datatype Totals = Totals(
    calls: nat, tokens: nat, money: real, moneyReports: nat, unreportedTokens: nat, unreportedMoney: nat)

  datatype BudgetError = TokenUsageMissing | MoneyUsageMissing | CallsExhausted | TokensExhausted | MoneyExhausted

  const MAX_SAFE_INTEGER: nat := 9007199254740991

  /** The usage of each attempt, in order; None when the call reported nothing. */
  type Reports = seq<Option<CallUsage>>

  function TokensOf(r: Option<CallUsage>): Option<nat> { if r.Some? then r.value.tokens else None }

  function MoneyOf(r: Option<CallUsage>): Option<real> { if r.Some? then r.value.money else None }

  function SumTokens(reports: Reports): nat {
    if reports == [] then 0
    else SumTokens(reports[..|reports| - 1]) + (match TokensOf(reports[|reports| - 1]) case Some(t) => t case None => 0)
  }

  function SumMoney(reports: Reports): real {
    if reports == [] then 0.0
    else SumMoney(reports[..|reports| - 1]) + (match MoneyOf(reports[|reports| - 1]) case Some(m) => m case None => 0.0)
  }

  ghost predicate AllTokensReported(reports: Reports) {
    forall i :: 0 <= i < |reports| ==> TokensOf(reports[i]).Some?
  }

  ghost predicate AllMoneyReported(reports: Reports) {
    forall i :: 0 <= i < |reports| ==> MoneyOf(reports[i]).Some?
  }

  predicate WithoutTokens(r: Option<CallUsage>) { r.None? || r.value.tokens.None? }

  predicate WithoutMoney(r: Option<CallUsage>) { r.None? || r.value.money.None? }

  lemma MissingGrow(reports: Reports, i: nat)
    requires i < |reports|
    ensures |Holding(reports[..i + 1], WithoutTokens)| == |Holding(reports[..i], WithoutTokens)| + (if TokensOf(reports[i]).None? then 1 else 0)
    ensures |Holding(reports[..i + 1], WithoutMoney)| == |Holding(reports[..i], WithoutMoney)| + (if MoneyOf(reports[i]).None? then 1 else 0)
  {
    assert reports[..i + 1][..i] == reports[..i];
    HoldingCount(reports[..i + 1], WithoutTokens);
    HoldingCount(reports[..i + 1], WithoutMoney);
  }

  lemma NothingMissing(reports: Reports)
    ensures |Holding(reports, WithoutTokens)| == 0 <==> AllTokensReported(reports)
    ensures |Holding(reports, WithoutMoney)| == 0 <==> AllMoneyReported(reports)
  {
    var tokens, money := Holding(reports, WithoutTokens), Holding(reports, WithoutMoney);
    assert forall i: nat :: i < |reports| ==> (i in tokens <==> TokensOf(reports[i]).None?) && (i in money <==> MoneyOf(reports[i]).None?);
    if AllTokensReported(reports) { assert tokens == {}; }
    if AllMoneyReported(reports) { assert money == {}; }
  }

  method CollaborationUsage(reports: Reports) returns (u: Totals)
    ensures u.calls == |reports| && u.tokens == SumTokens(reports) && u.money == SumMoney(reports)
    ensures u.unreportedTokens == |Holding(reports, WithoutTokens)| && u.unreportedMoney == |Holding(reports, WithoutMoney)|
    ensures u.unreportedTokens == 0 <==> AllTokensReported(reports)
    ensures u.unreportedMoney == 0 <==> AllMoneyReported(reports)
    ensures u.moneyReports + u.unreportedMoney == |reports|
  {
    var tokens, money, moneyReports, unreportedTokens, unreportedMoney := 0, 0.0, 0, 0, 0;
    for i := 0 to |reports|
      invariant tokens == SumTokens(reports[..i]) && money == SumMoney(reports[..i])
      invariant moneyReports + unreportedMoney == i
      invariant unreportedTokens == |Holding(reports[..i], WithoutTokens)| && unreportedMoney == |Holding(reports[..i], WithoutMoney)|
    {
      assert reports[..i + 1][..i] == reports[..i];
      MissingGrow(reports, i);
      match TokensOf(reports[i]) { case None => unreportedTokens := unreportedTokens + 1; case Some(t) => tokens := tokens + t; }
      match MoneyOf(reports[i]) {
        case None => unreportedMoney := unreportedMoney + 1;
        case Some(m) => money, moneyReports := money + m, moneyReports + 1;
      }
    }
    assert reports[..|reports|] == reports;
    NothingMissing(reports);
    u := Totals(|reports|, tokens, money, moneyReports, unreportedTokens, unreportedMoney);
  }

  /** Admission needs room left; applying a result tolerates an exactly used budget. */
  ghost predicate TokensFit(limit: nat, reports: Reports, admitting: bool) {
    && AllTokensReported(reports) && SumTokens(reports) <= MAX_SAFE_INTEGER
    && (if admitting then SumTokens(reports) < limit else SumTokens(reports) <= limit)
  }

  ghost predicate MoneyFits(limit: real, reports: Reports, admitting: bool) {
    && AllMoneyReported(reports)
    && (if admitting then SumMoney(reports) < limit else SumMoney(reports) <= limit)
  }

  ghost predicate CallsFit(limits: Limits, reports: Reports, admitting: bool) {
    limits.calls.Some? ==> if admitting then |reports| < limits.calls.value else |reports| <= limits.calls.value
  }

  ghost predicate Fits(limits: Option<Limits>, reports: Reports, admitting: bool) {
    limits.Some? ==>
      && CallsFit(limits.value, reports, admitting)
      && (limits.value.tokens.Some? ==> TokensFit(limits.value.tokens.value, reports, admitting))
      && (limits.value.money.Some? ==> MoneyFits(limits.value.money.value, reports, admitting))
  }

  /** A budget in tokens or money cannot be judged while an attempt did not report them. */
  ghost predicate CanJudge(limits: Limits, reports: Reports) {
    (limits.tokens.Some? ==> AllTokensReported(reports)) && (limits.money.Some? ==> AllMoneyReported(reports))
  }

  /** `assertCollaborationBudget`: None exactly when the attempts fit the budget, and otherwise the
      first reason that applies. */
  method AssertCollaborationBudget(limits: Option<Limits>, reports: Reports, admitting: bool)
    returns (error: Option<BudgetError>)
    ensures error.None? <==> Fits(limits, reports, admitting)
    ensures error == Some(TokenUsageMissing) <==>
      limits.Some? && limits.value.tokens.Some? && !AllTokensReported(reports)
    ensures error == Some(MoneyUsageMissing) <==>
      && limits.Some? && limits.value.money.Some? && !AllMoneyReported(reports)
      && (limits.value.tokens.Some? ==> AllTokensReported(reports))
    ensures error == Some(CallsExhausted) <==>
      limits.Some? && CanJudge(limits.value, reports) && !CallsFit(limits.value, reports, admitting)
    ensures error == Some(TokensExhausted) <==>
      && limits.Some? && CanJudge(limits.value, reports) && CallsFit(limits.value, reports, admitting)
      && limits.value.tokens.Some? && !TokensFit(limits.value.tokens.value, reports, admitting)
  {
    if limits.None? { return None; }
    var used := CollaborationUsage(reports);
    var budget := limits.value;
    if budget.tokens.Some? && used.unreportedTokens > 0 { return Some(TokenUsageMissing); }
    if budget.money.Some? && used.unreportedMoney > 0 { return Some(MoneyUsageMissing); }
    if budget.calls.Some? && (if admitting then used.calls >= budget.calls.value else used.calls > budget.calls.value) {
      return Some(CallsExhausted);
    }
    if budget.tokens.Some? && (used.tokens > MAX_SAFE_INTEGER
                               || if admitting then used.tokens >= budget.tokens.value else used.tokens > budget.tokens.value) {
      return Some(TokensExhausted);
    }
    if budget.money.Some? && (if admitting then used.money >= budget.money.value else used.money > budget.money.value) {
      return Some(MoneyExhausted);
    }
    return None;
  }

  /** Overshoot is at most one call: the number of attempts respects `calls`, and everything
      but the latest attempt is reported and strictly below the token and money limits. */
  ghost predicate OvershootsByOneCall(limits: Option<Limits>, reports: Reports) {
    limits.Some? && reports != [] ==>
      && (limits.value.calls.Some? ==> |reports| <= limits.value.calls.value)
      && (limits.value.tokens.Some? ==> TokensFit(limits.value.tokens.value, reports[..|reports| - 1], true))
      && (limits.value.money.Some? ==> MoneyFits(limits.value.money.value, reports[..|reports| - 1], true))
  }

  /** Only the latest report may differ from what was admitted. */
  lemma AdmissionBoundsOvershoot(limits: Option<Limits>, reports: Reports, next: Option<CallUsage>)
    requires Fits(limits, reports, true)
    ensures OvershootsByOneCall(limits, reports + [next])
  {
    assert (reports + [next])[..|reports|] == reports;
  }

  lemma LatestReportIsFree(limits: Option<Limits>, reports: Reports, changed: Reports)
    requires OvershootsByOneCall(limits, reports)
    requires |changed| == |reports| && forall i :: 0 <= i < |reports| - 1 ==> changed[i] == reports[i]
    ensures OvershootsByOneCall(limits, changed)
  {
    if reports != [] { assert changed[..|reports| - 1] == reports[..|reports| - 1]; }
  }
}
