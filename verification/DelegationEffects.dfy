/** One delegation from its request to what is handed back: when exactly it is submitted and
    delivered, and what the ledger then holds. */
module DelegationEffects {
  import opened Basics
  import opened GrantLedger
  import opened GrantLedgerRuns
  import opened GrantEffects
  import opened Delegation

  lemma RunExtends(w: World, digestOf: Grant -> Id, events: seq<Event>, e: Event)
    ensures RunAll(w, digestOf, events + [e]) == Next(RunAll(w, digestOf, events), digestOf, e)
  {
    assert (events + [e])[..|events|] == events;
  }

  /** The end of the grant: as recorded, or as the request says. */
  function EndOf(l: Ledger, req: Request): Time {
    if req.GrantId() in l.registrations then l.registrations[req.GrantId()].expiresAt else req.reg.grant.expiresAt
  }

  /** The grant of the request can be used: it is recorded just so and active, or may be recorded now. */
  ghost predicate CanUse(l: Ledger, digestOf: Grant -> Id, req: Request, now: Time) {
    var g := req.reg.grant;
    && g.revocationRef != "" && req.reg.digest == digestOf(g) && now < EndOf(l, req)
    && (g.grantId in l.registrations ==> Fits(l.registrations[g.grantId], req.reg) && l.registrations[g.grantId].status.Active?)
    && g.subject == req.agent && g.taskId == req.taskId
  }

  /** The account has the request's budget, a call left and not this call yet. */
  ghost predicate Admissible(l: Ledger, req: Request) {
    var a := Opened(l.grants, req.GrantId(), req.reg.grant.budget);
    a.budget == req.reg.grant.budget && req.key !in a.entries && HasRoom(a)
  }

  /** The usage stays within the token and money budgets of the account. */
  ghost predicate Affordable(l: Ledger, req: Request, usage: GrantUsage) {
    var a := Opened(l.grants, req.GrantId(), req.reg.grant.budget);
    && (match a.budget.tokens case None => true case Some(limit) => a.usedTokens + TokensIn(usage) <= limit)
    && (match a.budget.money case None => true case Some(limit) => a.usedMoney + MoneyIn(usage) <= limit)
  }

  /** What a checked request leaves: the grant recorded and active, the accounts as they would open. */
  ghost predicate Checked(l: Ledger, next: Ledger, req: Request) {
    && req.GrantId() in next.registrations && next.registrations[req.GrantId()].status.Active?
    && next.registrations[req.GrantId()].expiresAt == EndOf(l, req)
    && Opened(next.grants, req.GrantId(), req.reg.grant.budget) == Opened(l.grants, req.GrantId(), req.reg.grant.budget)
  }

  lemma CheckStep(w: World, digestOf: Grant -> Id, c: nat, req: Request, now: Time, reply: Reply)
    requires c in w.callers && w.callers[c] == Checking(req)
    ensures var next := Next(w, digestOf, Advance(c, now, reply));
      && next.submitted == w.submitted && next.delivered == w.delivered
      && next.callers == w.callers[c := if CanUse(w.ledger, digestOf, req, now) then Reserving(req) else Done]
      && (CanUse(w.ledger, digestOf, req, now) ==> Checked(w.ledger, next.ledger, req))
  {
    RegisteredExactly(w.ledger, digestOf, req.reg, now);
  }

  /** What an admitted call leaves: one more call, waiting. */
  ghost predicate Admitted(l: Ledger, next: Ledger, req: Request, now: Time) {
    var g, a := req.GrantId(), Opened(l.grants, req.GrantId(), req.reg.grant.budget);
    && g in next.grants && next.grants[g] == Account(a.budget, a.usedCalls + 1, a.usedTokens, a.usedMoney, a.entries[req.key := Entry(Reserved, now, None, None)])
    && g in l.registrations && g in next.registrations && next.registrations[g].status.Active?
    && next.registrations[g].expiresAt == l.registrations[g].expiresAt
  }

  lemma ReserveStep(w: World, digestOf: Grant -> Id, c: nat, req: Request, now: Time, reply: Reply)
    requires c in w.callers && w.callers[c] == Reserving(req)
    requires req.GrantId() in w.ledger.registrations && w.ledger.registrations[req.GrantId()].status.Active?
    ensures var next := Next(w, digestOf, Advance(c, now, reply));
      var ok := Admissible(w.ledger, req) && now < w.ledger.registrations[req.GrantId()].expiresAt;
      && next.submitted == w.submitted && next.delivered == w.delivered
      && next.callers == w.callers[c := if ok then Submitting(req) else Done]
      && (ok ==> Admitted(w.ledger, next.ledger, req, now))
  {
    ReservedExactly(w.ledger, req.GrantId(), req.key, req.reg.grant.budget, now);
  }

  lemma SubmitStep(w: World, digestOf: Grant -> Id, c: nat, req: Request, now: Time, reply: Reply)
    requires c in w.callers && w.callers[c] == Submitting(req)
    ensures Next(w, digestOf, Advance(c, now, reply)) == w.(submitted := w.submitted + [(req.GrantId(), req.key)], callers := w.callers[c := Awaiting(req)])
  {}

  lemma AnswerStep(w: World, digestOf: Grant -> Id, c: nat, req: Request, now: Time, usage: GrantUsage, result: Option<Id>)
    requires c in w.callers && w.callers[c] == Awaiting(req) && req.GrantId() in w.ledger.registrations
    ensures var next := Next(w, digestOf, Advance(c, now, Terminal(usage, result)));
      && next.submitted == w.submitted && next.delivered == w.delivered && next.ledger.grants == w.ledger.grants
      && next.callers == w.callers[c := Settling(req, usage, result, true)]
      && OnlyExpires(w.ledger, next.ledger, req.GrantId(), now)
  {
    LookOnlyExpires(w.ledger, req.GrantId(), now);
  }

  /** The ledger has the call and nobody settled or rejected it. */
  ghost predicate Waiting(l: Ledger, req: Request) {
    && Holds(l, req.GrantId(), req.key)
    && (l.grants[req.GrantId()].entries[req.key].state.Reserved? || l.grants[req.GrantId()].entries[req.key].state.Unknown?)
  }

  lemma SettleStep(w: World, digestOf: Grant -> Id, c: nat, req: Request, now: Time, usage: GrantUsage, result: Option<Id>, marks: bool, reply: Reply)
    requires c in w.callers && w.callers[c] == Settling(req, usage, result, marks) && Waiting(w.ledger, req)
    requires req.GrantId() in w.ledger.registrations
    ensures var next := Next(w, digestOf, Advance(c, now, reply)); var r := w.ledger.registrations[req.GrantId()];
      var fits := Affordable(w.ledger, req, usage);
      && next.submitted == w.submitted
      && next.delivered == (if fits && InForce(r, now) then w.delivered + [Delivery((req.GrantId(), req.key), true, result)] else w.delivered)
      && next.callers == w.callers[c := if fits || !marks then Done else Marking(req, None)]
      && (fits ==> Charged(w.ledger, next.ledger, req, usage, now, InForce(r, now)))
  {
    WaitingSettledExactly(w.ledger, req.GrantId(), req.key, usage, now);
  }

  /** The call is settled with this usage, charged, and authorized or not. */
  ghost predicate Charged(l: Ledger, next: Ledger, req: Request, usage: GrantUsage, now: Time, authorized: bool) {
    var g := req.GrantId();
    && g in l.grants && g in next.grants
    && next.grants[g].usedTokens == l.grants[g].usedTokens + TokensIn(usage) && next.grants[g].usedMoney == l.grants[g].usedMoney + MoneyIn(usage)
    && req.key in next.grants[g].entries
    && var e := next.grants[g].entries[req.key];
      && e.state.Settled? && e.usage == Some(usage) && e.updatedAt == now && e.authorization.Some?
      && (e.authorization.value.decision.Authorized? <==> authorized)
  }

  lemma DoneStays(w: World, digestOf: Grant -> Id, c: nat, now: Time, reply: Reply)
    requires c in w.callers && w.callers[c] == Done
    ensures Next(w, digestOf, Advance(c, now, reply)) == w
  {
    assert w.callers[c := Done] == w.callers;
  }

  /** From its admission to its settlement. */
  lemma AdmittedOutcome(w: World, digestOf: Grant -> Id, c: nat, req: Request, t2: Time, t3: Time, t4: Time, usage: GrantUsage, result: Option<Id>, reply: Reply)
    requires c in w.callers && w.callers[c] == Submitting(req) && t3 <= t4
    requires Waiting(w.ledger, req)
    requires req.GrantId() in w.ledger.registrations && w.ledger.registrations[req.GrantId()].status.Active?
    ensures var call, r := (req.GrantId(), req.key), w.ledger.registrations[req.GrantId()];
      var submitted := Next(w, digestOf, Advance(c, t2, reply));
      var answered := Next(submitted, digestOf, Advance(c, t3, Terminal(usage, result)));
      var next := Next(answered, digestOf, Advance(c, t4, reply));
      && next.submitted == w.submitted + [call]
      && next.delivered == (if Affordable(w.ledger, req, usage) && t4 < r.expiresAt then w.delivered + [Delivery(call, true, result)] else w.delivered)
      && (Affordable(w.ledger, req, usage) ==> Charged(w.ledger, next.ledger, req, usage, t4, t4 < r.expiresAt))
  {
    SubmitStep(w, digestOf, c, req, t2, reply);
    var submitted := Next(w, digestOf, Advance(c, t2, reply));
    AnswerStep(submitted, digestOf, c, req, t3, usage, result);
    var answered := Next(submitted, digestOf, Advance(c, t3, Terminal(usage, result)));
    SettleStep(answered, digestOf, c, req, t4, usage, result, true, reply);
  }

  function OneDelegation(c: nat, req: Request, t0: Time, t1: Time, t2: Time, t3: Time, t4: Time, usage: GrantUsage, result: Option<Id>, reply: Reply): seq<Event> {
    [Delegate(c, req)] + [Advance(c, t0, reply)] + [Advance(c, t1, reply)] + [Advance(c, t2, reply)] + [Advance(c, t3, Terminal(usage, result))]
    + [Advance(c, t4, reply)]
  }

  lemma DelegationRuns(w: World, digestOf: Grant -> Id, c: nat, req: Request, t0: Time, t1: Time, t2: Time, t3: Time, t4: Time,
                       usage: GrantUsage, result: Option<Id>, reply: Reply)
    requires c !in w.callers
    ensures var checking := w.(callers := w.callers[c := Checking(req)]);
      var reserving := Next(checking, digestOf, Advance(c, t0, reply));
      var submitting := Next(reserving, digestOf, Advance(c, t1, reply));
      var submitted := Next(submitting, digestOf, Advance(c, t2, reply));
      var answered := Next(submitted, digestOf, Advance(c, t3, Terminal(usage, result)));
      RunAll(w, digestOf, OneDelegation(c, req, t0, t1, t2, t3, t4, usage, result, reply)) == Next(answered, digestOf, Advance(c, t4, reply))
  {
    var e0, e1, e2, e3 := [Delegate(c, req)], [Advance(c, t0, reply)], [Advance(c, t1, reply)], [Advance(c, t2, reply)];
    var e4 := [Advance(c, t3, Terminal(usage, result))];
    assert [] + e0 == e0;
    RunExtends(w, digestOf, [], Delegate(c, req));
    RunExtends(w, digestOf, e0, Advance(c, t0, reply));
    RunExtends(w, digestOf, e0 + e1, Advance(c, t1, reply));
    RunExtends(w, digestOf, e0 + e1 + e2, Advance(c, t2, reply));
    RunExtends(w, digestOf, e0 + e1 + e2 + e3, Advance(c, t3, Terminal(usage, result)));
    RunExtends(w, digestOf, e0 + e1 + e2 + e3 + e4, Advance(c, t4, reply));
  }

  /** One delegation that nobody else comes between, its transport answering with an outcome: the call is
      submitted exactly when its grant can be used and has it admitted, and its result is handed back
      exactly when the usage is affordable too and the grant lasts to the end. Then the usage is charged
      and the settled entry carries the authorization; in no other case is one handed back. */
  lemma DelegatedExactly(w: World, digestOf: Grant -> Id, c: nat, req: Request, t0: Time, t1: Time, t2: Time, t3: Time, t4: Time,
                         usage: GrantUsage, result: Option<Id>, reply: Reply)
    requires c !in w.callers && t0 <= t1 <= t3 <= t4
    ensures var next, call := RunAll(w, digestOf, OneDelegation(c, req, t0, t1, t2, t3, t4, usage, result, reply)), (req.GrantId(), req.key);
      var admitted := CanUse(w.ledger, digestOf, req, t1) && Admissible(w.ledger, req);
      var final := admitted && t4 < EndOf(w.ledger, req) && Affordable(w.ledger, req, usage);
      && next.submitted == (if admitted then w.submitted + [call] else w.submitted)
      && next.delivered == (if final then w.delivered + [Delivery(call, true, result)] else w.delivered)
      && (final ==> Paid(w.ledger, next.ledger, req, usage, t4))
  {
    DelegationRuns(w, digestOf, c, req, t0, t1, t2, t3, t4, usage, result, reply);
    var checking := w.(callers := w.callers[c := Checking(req)]);
    CheckStep(checking, digestOf, c, req, t0, reply);
    var reserving := Next(checking, digestOf, Advance(c, t0, reply));
    if CanUse(w.ledger, digestOf, req, t0) {
      ReserveStep(reserving, digestOf, c, req, t1, reply);
      var submitting := Next(reserving, digestOf, Advance(c, t1, reply));
      if submitting.callers[c] == Done { RestIsDone(submitting, digestOf, c, t2, t3, t4, usage, result, reply); }
      else { AdmittedOutcome(submitting, digestOf, c, req, t2, t3, t4, usage, result, reply); }
    } else {
      DoneStays(reserving, digestOf, c, t1, reply);
      RestIsDone(reserving, digestOf, c, t2, t3, t4, usage, result, reply);
    }
  }

  lemma RestIsDone(w: World, digestOf: Grant -> Id, c: nat, t2: Time, t3: Time, t4: Time, usage: GrantUsage, result: Option<Id>, reply: Reply)
    requires c in w.callers && w.callers[c] == Done
    ensures Next(Next(Next(w, digestOf, Advance(c, t2, reply)), digestOf, Advance(c, t3, Terminal(usage, result))), digestOf, Advance(c, t4, reply)) == w
  {
    DoneStays(w, digestOf, c, t2, reply);
    DoneStays(w, digestOf, c, t3, Terminal(usage, result));
    DoneStays(w, digestOf, c, t4, reply);
  }

  /** One more call than the account had, its usage charged, and the settled entry authorized. */
  ghost predicate Paid(l: Ledger, next: Ledger, req: Request, usage: GrantUsage, now: Time) {
    var g, a := req.GrantId(), Opened(l.grants, req.GrantId(), req.reg.grant.budget);
    && g in next.grants && next.grants[g].usedTokens == a.usedTokens + TokensIn(usage) && next.grants[g].usedMoney == a.usedMoney + MoneyIn(usage)
    && req.key in next.grants[g].entries
    && var e := next.grants[g].entries[req.key];
      && e.state.Settled? && e.usage == Some(usage) && e.updatedAt == now && e.authorization.Some? && e.authorization.value.decision.Authorized?
  }

  // ---------------------------------------------------------------- one reconciliation

  /** The grant of the request is recorded just so, or may be recorded now; what became of it does not matter. */
  ghost predicate CanRegister(l: Ledger, digestOf: Grant -> Id, req: Request, now: Time) {
    var g := req.reg.grant;
    && g.revocationRef != "" && req.reg.digest == digestOf(g) && g.subject == req.agent && g.taskId == req.taskId
    && if g.grantId in l.registrations then Fits(l.registrations[g.grantId], req.reg) else now < g.expiresAt
  }

  /** Nobody settled or rejected the call: it waits in the ledger, or the ledger can still take it. */
  ghost predicate Reconcilable(l: Ledger, req: Request, now: Time) {
    var a := Opened(l.grants, req.GrantId(), req.reg.grant.budget);
    && a.budget == req.reg.grant.budget
    && (req.key in a.entries || (HasRoom(a) && Lasts(l, req, now)))
  }

  /** The grant is active, or not recorded yet, and not over at this time. */
  ghost predicate Lasts(l: Ledger, req: Request, now: Time) {
    now < EndOf(l, req) && (req.GrantId() in l.registrations ==> l.registrations[req.GrantId()].status.Active?)
  }

  /** What a registration leaves: the accounts as they would open, and a record that is in force exactly
      when the grant lasts. */
  ghost predicate Recorded(l: Ledger, next: Ledger, req: Request, now: Time) {
    && req.GrantId() in next.registrations
    && (forall t: Time :: now <= t ==> (InForce(next.registrations[req.GrantId()], t) <==> Lasts(l, req, t)))
    && Opened(next.grants, req.GrantId(), req.reg.grant.budget) == Opened(l.grants, req.GrantId(), req.reg.grant.budget)
  }

  lemma RegisterStep(w: World, digestOf: Grant -> Id, c: nat, req: Request, now: Time, reply: Reply)
    requires c in w.callers && w.callers[c] == Registering(req)
    ensures var next := Next(w, digestOf, Advance(c, now, reply));
      && next.submitted == w.submitted && next.delivered == w.delivered
      && next.callers == w.callers[c := if CanRegister(w.ledger, digestOf, req, now) then EnsuringUnknown(req) else Done]
      && (CanRegister(w.ledger, digestOf, req, now) ==> Recorded(w.ledger, next.ledger, req, now))
  {
    RegisteredExactly(w.ledger, digestOf, req.reg, now);
  }

  lemma EnsureStep(w: World, digestOf: Grant -> Id, c: nat, req: Request, now: Time, reply: Reply)
    requires c in w.callers && w.callers[c] == EnsuringUnknown(req) && req.GrantId() in w.ledger.registrations
    requires HasEntry(w.ledger, req.GrantId(), req.key) ==> Waiting(w.ledger, req)
    ensures var next := Next(w, digestOf, Advance(c, now, reply)); var r := w.ledger.registrations[req.GrantId()];
      var a := Opened(w.ledger.grants, req.GrantId(), req.reg.grant.budget);
      var ok := a.budget == req.reg.grant.budget && (req.key in a.entries || (HasRoom(a) && InForce(r, now)));
      && next.submitted == w.submitted && next.delivered == w.delivered
      && next.callers == w.callers[c := if ok then Reconciling(req) else Done]
      && (ok ==>
            && Waiting(next.ledger, req) && req.GrantId() in next.ledger.registrations
            && (forall t: Time :: now <= t ==> (InForce(next.ledger.registrations[req.GrantId()], t) <==> InForce(r, t)))
            && next.ledger.grants[req.GrantId()].usedTokens == a.usedTokens && next.ledger.grants[req.GrantId()].usedMoney == a.usedMoney
            && next.ledger.grants[req.GrantId()].budget == a.budget)
  {
    UnknownEnsuredExactly(w.ledger, req.GrantId(), req.key, req.reg.grant.budget, now);
  }

  lemma ToldStep(w: World, digestOf: Grant -> Id, c: nat, req: Request, now: Time, usage: GrantUsage, result: Option<Id>)
    requires c in w.callers && w.callers[c] == Reconciling(req)
    ensures Next(w, digestOf, Advance(c, now, Terminal(usage, result))) == w.(callers := w.callers[c := Settling(req, usage, result, false)])
  {}

  function OneReconciliation(c: nat, req: Request, t0: Time, t1: Time, t2: Time, t3: Time, usage: GrantUsage, result: Option<Id>, reply: Reply): seq<Event> {
    [Reconcile(c, req)] + [Advance(c, t0, reply)] + [Advance(c, t1, reply)] + [Advance(c, t2, Terminal(usage, result))] + [Advance(c, t3, reply)]
  }

  lemma ReconciliationRuns(w: World, digestOf: Grant -> Id, c: nat, req: Request, t0: Time, t1: Time, t2: Time, t3: Time,
                           usage: GrantUsage, result: Option<Id>, reply: Reply)
    requires c !in w.callers
    ensures var registering := w.(callers := w.callers[c := Registering(req)]);
      var ensuring := Next(registering, digestOf, Advance(c, t0, reply));
      var asking := Next(ensuring, digestOf, Advance(c, t1, reply));
      var told := Next(asking, digestOf, Advance(c, t2, Terminal(usage, result)));
      RunAll(w, digestOf, OneReconciliation(c, req, t0, t1, t2, t3, usage, result, reply)) == Next(told, digestOf, Advance(c, t3, reply))
  {
    var e0, e1, e2, e3 := [Reconcile(c, req)], [Advance(c, t0, reply)], [Advance(c, t1, reply)], [Advance(c, t2, Terminal(usage, result))];
    assert [] + e0 == e0;
    RunExtends(w, digestOf, [], Reconcile(c, req));
    RunExtends(w, digestOf, e0, Advance(c, t0, reply));
    RunExtends(w, digestOf, e0 + e1, Advance(c, t1, reply));
    RunExtends(w, digestOf, e0 + e1 + e2, Advance(c, t2, Terminal(usage, result)));
    RunExtends(w, digestOf, e0 + e1 + e2 + e3, Advance(c, t3, reply));
  }

  lemma EnsuredOutcome(w: World, digestOf: Grant -> Id, c: nat, req: Request, t1: Time, t2: Time, t3: Time, usage: GrantUsage, result: Option<Id>, reply: Reply)
    requires c in w.callers && w.callers[c] == EnsuringUnknown(req) && req.GrantId() in w.ledger.registrations && t1 <= t3
    requires HasEntry(w.ledger, req.GrantId(), req.key) ==> Waiting(w.ledger, req)
    ensures var r, a := w.ledger.registrations[req.GrantId()], Opened(w.ledger.grants, req.GrantId(), req.reg.grant.budget);
      var ok := a.budget == req.reg.grant.budget && (req.key in a.entries || (HasRoom(a) && InForce(r, t1)));
      var asking := Next(w, digestOf, Advance(c, t1, reply));
      var told := Next(asking, digestOf, Advance(c, t2, Terminal(usage, result)));
      var next := Next(told, digestOf, Advance(c, t3, reply));
      && next.submitted == w.submitted
      && next.delivered == if ok && Affordable(w.ledger, req, usage) && InForce(r, t3)
                           then w.delivered + [Delivery((req.GrantId(), req.key), true, result)] else w.delivered
  {
    EnsureStep(w, digestOf, c, req, t1, reply);
    var asking := Next(w, digestOf, Advance(c, t1, reply));
    if asking.callers[c] == Done {
      DoneStays(asking, digestOf, c, t2, Terminal(usage, result));
      DoneStays(asking, digestOf, c, t3, reply);
    } else {
      ToldStep(asking, digestOf, c, req, t2, usage, result);
      var told := Next(asking, digestOf, Advance(c, t2, Terminal(usage, result)));
      SettleStep(told, digestOf, c, req, t3, usage, result, false, reply);
    }
  }

  /** One reconciliation of a call nobody settled, with an outcome from the transport: it submits nothing,
      and hands the result back exactly when the grant fits its record, the ledger has the call or can
      take it, the usage is affordable and the grant lasts to the end. */
  lemma ReconciledExactly(w: World, digestOf: Grant -> Id, c: nat, req: Request, t0: Time, t1: Time, t2: Time, t3: Time,
                          usage: GrantUsage, result: Option<Id>, reply: Reply)
    requires c !in w.callers && t0 <= t1 <= t3 && (HasEntry(w.ledger, req.GrantId(), req.key) ==> Waiting(w.ledger, req))
    ensures var next := RunAll(w, digestOf, OneReconciliation(c, req, t0, t1, t2, t3, usage, result, reply));
      var final := CanRegister(w.ledger, digestOf, req, t0) && Reconcilable(w.ledger, req, t1) && Affordable(w.ledger, req, usage) && Lasts(w.ledger, req, t3);
      && next.submitted == w.submitted
      && next.delivered == if final then w.delivered + [Delivery((req.GrantId(), req.key), true, result)] else w.delivered
  {
    ReconciliationRuns(w, digestOf, c, req, t0, t1, t2, t3, usage, result, reply);
    var registering := w.(callers := w.callers[c := Registering(req)]);
    RegisterStep(registering, digestOf, c, req, t0, reply);
    var ensuring := Next(registering, digestOf, Advance(c, t0, reply));
    if CanRegister(w.ledger, digestOf, req, t0) {
      EnsuredOutcome(ensuring, digestOf, c, req, t1, t2, t3, usage, result, reply);
    } else {
      DoneStays(ensuring, digestOf, c, t1, reply);
      DoneStays(ensuring, digestOf, c, t2, Terminal(usage, result));
      DoneStays(ensuring, digestOf, c, t3, reply);
    }
  }

  /** A call whose transport fails is marked unknown, and nothing is handed back. */
  lemma LostAnswerIsMarked(w: World, digestOf: Grant -> Id, c: nat, req: Request, t3: Time, t4: Time, reply: Reply)
    requires c in w.callers && w.callers[c] == Awaiting(req) && Waiting(w.ledger, req)
    ensures var next := Next(Next(w, digestOf, Advance(c, t3, Broken)), digestOf, Advance(c, t4, reply));
      && next.submitted == w.submitted && next.delivered == w.delivered && next.callers == w.callers[c := Done]
      && next.ledger.registrations == w.ledger.registrations
      && Holds(next.ledger, req.GrantId(), req.key) && next.ledger.grants[req.GrantId()].entries[req.key].state.Unknown?
      && next.ledger.grants[req.GrantId()].entries[req.key].updatedAt == t4
  {
    MarkedExactly(w.ledger, req.GrantId(), req.key, t4);
  }
}
