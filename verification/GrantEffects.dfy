/** What each operation of the grant ledger takes and what it leaves, told on the stored records,
    counters and entries. */
module GrantEffects {
  import opened Basics
  import opened GrantLedger

  // ---------------------------------------------------------------- looking at a grant

  predicate InForce(r: GrantRecord, now: Time) { r.status.Active? && now < r.expiresAt }

  /** Of the registrations only this one may have changed, and only from active to expired at its end. */
  ghost predicate OnlyExpires(l: Ledger, next: Ledger, g: Id, now: Time) {
    && next.registrations.Keys == l.registrations.Keys
    && (forall h :: h in l.registrations && h != g ==> next.registrations[h] == l.registrations[h])
    && (g in l.registrations ==>
          var r := l.registrations[g];
          next.registrations[g] ==
          if r.status.Active? && !InForce(r, now) then r.(status := Expired, history := r.history + [Change(Expired, now)]) else r)
  }

  lemma LookOnlyExpires(l: Ledger, g: Id, now: Time)
    ensures OnlyExpires(l, Look(l, g, now), g, now) && Look(l, g, now).grants == l.grants
  {}

  // ---------------------------------------------------------------- registering and revoking

  ghost predicate Fits(r: GrantRecord, reg: Registration) {
    && r.digest == reg.digest && r.subject == reg.grant.subject && r.issuer == reg.grant.issuer
    && r.taskId == reg.grant.taskId && r.revocationRef == reg.grant.revocationRef
  }

  /** The account of a grant, or an empty one with this budget. */
  function Opened(grants: map<Id, Account>, g: Id, budget: GrantBudget): Account {
    if g in grants then grants[g] else Account(budget, 0, 0, 0.0, map[])
  }

  /** A registration is taken exactly when it names how to revoke it and carries its own digest, and the
      grant is either the one recorded, in all its bindings, or new and not over. */
  lemma RegisteredExactly(l: Ledger, digestOf: Grant -> Id, reg: Registration, now: Time)
    ensures var (next, answer) := EnsureIn(l, digestOf, reg, now); var g := reg.grant;
      var known := g.grantId in l.registrations;
      && (answer.Ok? <==>
            && g.revocationRef != "" && reg.digest == digestOf(g)
            && if known then Fits(l.registrations[g.grantId], reg) else now < g.expiresAt)
      && (answer.Err? ==> next == l)
      && (answer.Ok? ==> g.grantId in next.registrations && answer.value == next.registrations[g.grantId])
      && (answer.Ok? && known ==> OnlyExpires(l, next, g.grantId, now) && next.grants == l.grants)
      && (answer.Ok? && !known ==>
            var at := match reg.registeredAt case Some(t) => t case None => now;
            && next.registrations == l.registrations[g.grantId :=
                 GrantRecord(reg.digest, g.subject, g.issuer, g.taskId, g.revocationRef, g.expiresAt, Active, at, [Change(Active, at)])]
            && next.grants == l.grants[g.grantId := Opened(l.grants, g.grantId, g.budget)])
  {}

  /** A known grant is revoked from now on, once; an unknown one is refused. */
  lemma RevokedExactly(l: Ledger, g: Id, at: Time)
    ensures var (next, answer) := RevokeIn(l, g, at);
      && next.grants == l.grants
      && (g !in l.registrations ==> answer == Err(UnknownGrant) && next == l)
      && (g in l.registrations ==>
            var r := l.registrations[g];
            && answer == Ok(if r.status.Revoked? then r else r.(status := Revoked, history := r.history + [Change(Revoked, at)]))
            && next.registrations == l.registrations[g := answer.value])
  {}

  // ---------------------------------------------------------------- admitting a call

  /** The registration, if there is one, is in force. */
  predicate MayCall(l: Ledger, g: Id, now: Time) { g in l.registrations ==> InForce(l.registrations[g], now) }

  ghost predicate HasRoom(a: Account) { match a.budget.calls case None => true case Some(limit) => a.usedCalls < limit }

  /** One more call with this entry, and nothing else of the accounts changed. */
  ghost predicate Admits(l: Ledger, next: Ledger, g: Id, k: Id, budget: GrantBudget, e: Entry) {
    var a := Opened(l.grants, g, budget);
    next.grants == l.grants[g := Account(a.budget, a.usedCalls + 1, a.usedTokens, a.usedMoney, a.entries[k := e])]
  }

  /** A call is reserved exactly when its grant is in force or unregistered, the budget is the one the
      account has, the key is new and a call is left. A refusal only expires a grant that is over. */
  lemma ReservedExactly(l: Ledger, g: Id, k: Id, budget: GrantBudget, now: Time)
    ensures var (next, answer) := ReserveIn(l, g, k, budget, now); var a := Opened(l.grants, g, budget);
      && (answer.Ok? <==> MayCall(l, g, now) && a.budget == budget && k !in a.entries && HasRoom(a))
      && (answer.Ok? ==> Admits(l, next, g, k, budget, Entry(Reserved, now, None, None)))
      && (answer.Err? ==> next.grants == l.grants)
      && (answer == Err(AlreadySettled) ==> k in a.entries && a.entries[k].state.Settled?)
      && (answer == Err(AlreadyReserved) ==> k in a.entries && !a.entries[k].state.Settled?)
      && OnlyExpires(l, next, g, now)
  {
    LookOnlyExpires(l, g, now);
  }

  /** A call found only outside the ledger is added as unknown under the same conditions; one the
      account knows is left as it is, whatever its grant has become. */
  lemma UnknownEnsuredExactly(l: Ledger, g: Id, k: Id, budget: GrantBudget, now: Time)
    ensures var (next, answer) := EnsureUnknownIn(l, g, k, budget, now); var a := Opened(l.grants, g, budget);
      && (answer.Ok? <==> a.budget == budget && (k in a.entries || (MayCall(l, g, now) && HasRoom(a))))
      && (k in a.entries ==> next == l)
      && (answer.Ok? && k !in a.entries ==> Admits(l, next, g, k, budget, Entry(Unknown, now, None, None)) && OnlyExpires(l, next, g, now))
      && (answer.Err? ==> next.grants == l.grants && (next == l || OnlyExpires(l, next, g, now)))
  {
    LookOnlyExpires(l, g, now);
  }

  // ---------------------------------------------------------------- an entry

  predicate Holds(l: Ledger, g: Id, k: Id) { g in l.grants && k in l.grants[g].entries }

  /** The account with one entry replaced and these totals. */
  ghost predicate Replaces(l: Ledger, next: Ledger, g: Id, k: Id, e: Entry, tokens: nat, money: Cost)
    requires Holds(l, g, k)
  {
    var a := l.grants[g];
    next.grants == l.grants[g := Account(a.budget, a.usedCalls, tokens, money, a.entries[k := e])]
  }

  /** A waiting call becomes unknown; a settled or rejected one stays; an untracked one is refused. */
  lemma MarkedExactly(l: Ledger, g: Id, k: Id, now: Time)
    ensures var (next, answer) := MarkUnknownIn(l, g, k, now);
      && (answer.Ok? <==> Holds(l, g, k)) && next.registrations == l.registrations
      && (!Holds(l, g, k) ==> next == l)
      && (Holds(l, g, k) ==>
            var a, e := l.grants[g], l.grants[g].entries[k];
            if e.state.Reserved? || e.state.Unknown?
            then Replaces(l, next, g, k, Entry(Unknown, now, e.usage, e.authorization), a.usedTokens, a.usedMoney) else next == l)
  {}

  function TokensIn(u: GrantUsage): nat { match u.tokens case Some(n) => n case None => 0 }

  function MoneyIn(u: GrantUsage): Cost { match u.money case Some(m) => m case None => 0.0 }

  /** What the registration, once looked at, lets a settlement say. */
  ghost predicate Says(next: Ledger, g: Id, k: Id, at: Time, r: Receipt) {
    if g in next.registrations then
      r == Receipt(g, k, if next.registrations[g].status.Active? then Authorized else Isolated, Some(next.registrations[g].status), at,
                   Some(next.registrations[g].digest))
    else r == Receipt(g, k, Isolated, None, at, None)
  }

  /** A waiting call takes its usage. Over the token budget it is rejected and only tokens are charged;
      else over the money budget, and only money is; else both are, and it is settled with a receipt
      that says what its grant, expired when due, is now. */
  lemma WaitingSettledExactly(l: Ledger, g: Id, k: Id, usage: GrantUsage, now: Time)
    requires Holds(l, g, k) && (l.grants[g].entries[k].state.Reserved? || l.grants[g].entries[k].state.Unknown?)
    ensures var (next, answer) := SettleIn(l, g, k, usage, now); var a, e := l.grants[g], l.grants[g].entries[k];
      var tokens, money := a.usedTokens + TokensIn(usage), a.usedMoney + MoneyIn(usage);
      if a.budget.tokens.Some? && a.budget.tokens.value < tokens then
        && answer == Err(TokensExhausted) && next.registrations == l.registrations
        && Replaces(l, next, g, k, Entry(Rejected(ExceededTokens), now, Some(usage), e.authorization), tokens, a.usedMoney)
      else if a.budget.money.Some? && a.budget.money.value < money then
        && answer == Err(MoneyExhausted) && next.registrations == l.registrations
        && Replaces(l, next, g, k, Entry(Rejected(ExceededMoney), now, Some(usage), e.authorization), a.usedTokens, money)
      else
        && answer.Ok? && OnlyExpires(l, next, g, now) && Says(next, g, k, now, answer.value)
        && Replaces(l, next, g, k, Entry(Settled, now, Some(usage), Some(answer.value)), tokens, money)
  {
    LookOnlyExpires(l, g, now);
  }

  /** A call that does not wait: none is refused, a rejected one is refused, and a settled one answers
      with its receipt, which one of an earlier version gets now. */
  lemma OtherSettledExactly(l: Ledger, g: Id, k: Id, usage: GrantUsage, now: Time)
    requires Holds(l, g, k) ==> l.grants[g].entries[k].state.Settled? || l.grants[g].entries[k].state.Rejected?
    ensures var (next, answer) := SettleIn(l, g, k, usage, now);
      && (!Holds(l, g, k) ==> answer == Err(ReservationMissing) && next == l)
      && (Holds(l, g, k) ==>
            var a, e := l.grants[g], l.grants[g].entries[k];
            && (e.state.Rejected? ==> answer == Err(AlreadyRejected) && next == l)
            && (e.state.Settled? && e.authorization.Some? ==> answer == Ok(e.authorization.value) && next == l)
            && (e.state.Settled? && e.authorization.None? ==>
                  && answer.Ok? && OnlyExpires(l, next, g, now) && Says(next, g, k, e.updatedAt, answer.value)
                  && Replaces(l, next, g, k, Entry(Settled, e.updatedAt, e.usage, Some(answer.value)), a.usedTokens, a.usedMoney)))
  {
    LookOnlyExpires(l, g, now);
  }
}
