/** What every run of ledger operations keeps, in any order and with any clock:
    accounting conserves, receipts never change, and a grant never becomes active again. */
module GrantLedgerRuns {
  import opened Basics
  import opened GrantLedger

  // ---------------------------------------------------------------- sums over entries

  ghost function Sum(m: map<Id, Entry>, f: Entry -> real): real
    decreases |m|
  {
    if m == map[] then 0.0
    else
      var k :| k in m;
      f(m[k]) + Sum(m - {k}, f)
  }

  lemma {:induction false} SumAt(m: map<Id, Entry>, k: Id, f: Entry -> real)
    requires k in m
    ensures Sum(m, f) == f(m[k]) + Sum(m - {k}, f)
    decreases |m|
  {
    var j :| j in m && Sum(m, f) == f(m[j]) + Sum(m - {j}, f);
    if j != k {
      SumAt(m - {j}, k, f);
      SumAt(m - {k}, j, f);
      assert m - {j} - {k} == m - {k} - {j};
    }
  }

  lemma SumUpdate(m: map<Id, Entry>, k: Id, e: Entry, f: Entry -> real)
    ensures Sum(m[k := e], f) == Sum(m, f) - (if k in m then f(m[k]) else 0.0) + f(e)
  {
    SumAt(m[k := e], k, f);
    if k in m {
      SumAt(m, k, f);
      assert m[k := e] - {k} == m - {k};
    } else {
      assert m[k := e] - {k} == m;
    }
  }

  lemma {:induction false} SumLeq(m: map<Id, Entry>, f: Entry -> real, g: Entry -> real)
    requires forall e :: f(e) <= g(e)
    ensures Sum(m, f) <= Sum(m, g)
    decreases |m|
  {
    if m != map[] {
      var k :| k in m;
      SumAt(m, k, f);
      SumAt(m, k, g);
      SumLeq(m - {k}, f, g);
    }
  }

  function UsedTokens(e: Entry): real { if e.usage.Some? then Tokens(e.usage.value) as real else 0.0 }

  function UsedMoney(e: Entry): real { if e.usage.Some? then Money(e.usage.value) else 0.0 }

  function SettledTokens(e: Entry): real { if e.state.Settled? then UsedTokens(e) else 0.0 }

  function SettledMoney(e: Entry): real { if e.state.Settled? then UsedMoney(e) else 0.0 }

  /** What an entry charged: a token rejection charges only tokens, a money rejection only money. */
  function ChargedTokens(e: Entry): real {
    if e.state.Settled? || e.state == Rejected(ExceededTokens) then UsedTokens(e) else 0.0
  }

  function ChargedMoney(e: Entry): real {
    if e.state.Settled? || e.state == Rejected(ExceededMoney) then UsedMoney(e) else 0.0
  }

  // ---------------------------------------------------------------- invariants

  ghost predicate Conserved(a: Account) {
    && a.usedCalls == |a.entries|
    && a.usedTokens as real == Sum(a.entries, ChargedTokens)
    && a.usedMoney == Sum(a.entries, ChargedMoney)
  }

  ghost predicate WithinBudget(a: Account) {
    && (a.budget.calls.Some? ==> a.usedCalls <= a.budget.calls.value)
    && (a.budget.tokens.Some? ==> Sum(a.entries, SettledTokens) <= a.budget.tokens.value as real)
    && (a.budget.money.Some? ==> Sum(a.entries, SettledMoney) <= a.budget.money.value)
  }

  predicate OverBudget(a: Account) {
    || (a.budget.tokens.Some? && a.usedTokens > a.budget.tokens.value)
    || (a.budget.money.Some? && a.usedMoney > a.budget.money.value)
  }

  /** A rejected entry leaves its account over that budget. */
  ghost predicate RejectionsAreOver(a: Account) {
    forall k :: k in a.entries && a.entries[k].state.Rejected? ==>
      match a.entries[k].state.why
      case ExceededTokens => a.budget.tokens.Some? && a.usedTokens > a.budget.tokens.value
      case ExceededMoney => a.budget.money.Some? && a.usedMoney > a.budget.money.value
  }

  predicate IsAuthorized(e: Entry) { e.authorization.Some? && e.authorization.value.decision.Authorized? }

  /** Everything the ledger holds about one grant. */
  datatype Slot = Slot(record: Option<GrantRecord>, account: Option<Account>)

  function View(l: Ledger, g: Id): Slot {
    Slot(if g in l.registrations then Some(l.registrations[g]) else None, if g in l.grants then Some(l.grants[g]) else None)
  }

  /** Exactly the settled entries have a receipt, and it says what it was issued for. */
  ghost predicate Receipted(record: Option<GrantRecord>, g: Id, k: Id, e: Entry) {
    && (e.authorization.Some? <==> e.state.Settled?)
    && (e.usage.Some? <==> e.state.Settled? || e.state.Rejected?)
    && (e.authorization.Some? ==>
          var r := e.authorization.value;
          && r.grantId == g && r.key == k && r.settledAt == e.updatedAt
          && (r.decision.Authorized? <==> r.status == Some(Active))
          && (r.decision.Authorized? ==> record.Some? && r.digest == Some(record.value.digest)))
  }

  ghost predicate AllReceipted(record: Option<GrantRecord>, g: Id, a: Account) {
    forall k :: k in a.entries ==> Receipted(record, g, k, a.entries[k])
  }

  /** The recorded lifecycle: active first, then possibly expired, then possibly revoked. */
  predicate Lifecycle(r: GrantRecord) {
    && 1 <= |r.history| <= 3 && r.history[0].status.Active? && r.history[|r.history| - 1].status == r.status
    && (forall i :: 1 <= i < |r.history| ==> !r.history[i].status.Active?)
    && (|r.history| == 3 ==> r.history[1].status.Expired? && r.history[2].status.Revoked?)
  }

  ghost predicate Balanced(a: Account) { Conserved(a) && WithinBudget(a) && RejectionsAreOver(a) }

  ghost predicate SlotInv(g: Id, s: Slot) {
    && (s.record.Some? ==> Lifecycle(s.record.value))
    && (s.account.Some? ==> Balanced(s.account.value) && AllReceipted(s.record, g, s.account.value))
  }

  ghost predicate Inv(l: Ledger) { forall g :: SlotInv(g, View(l, g)) }

  // ---------------------------------------------------------------- what may change

  predicate StatusMayBecome(a: Status, b: Status) { a == b || a.Active? || (a.Expired? && b.Revoked?) }

  ghost predicate RecordAges(a: GrantRecord, b: GrantRecord) {
    && StatusMayBecome(a.status, b.status) && a.history <= b.history
    && b.digest == a.digest && b.expiresAt == a.expiresAt && b.subject == a.subject && b.issuer == a.issuer
    && b.taskId == a.taskId && b.revocationRef == a.revocationRef && b.registeredAt == a.registeredAt
  }

  predicate EntryAges(a: Entry, b: Entry) {
    && (a.state.Rejected? ==> b == a)
    && (a.state.Settled? ==> b.state.Settled? && b.usage == a.usage && b.updatedAt == a.updatedAt
                             && (a.authorization.Some? ==> b.authorization == a.authorization))
    && (b.state.Reserved? ==> a.state.Reserved?)
  }

  ghost predicate AccountAges(a: Account, b: Account) {
    && b.budget == a.budget && a.usedCalls <= b.usedCalls && a.usedTokens <= b.usedTokens && a.usedMoney <= b.usedMoney
    && (forall k :: k in a.entries ==> k in b.entries && EntryAges(a.entries[k], b.entries[k]))
    && (OverBudget(a) ==> forall k :: k in b.entries && b.entries[k].state.Settled? ==> k in a.entries && a.entries[k].state.Settled?)
  }

  ghost predicate SlotAges(s: Slot, t: Slot) {
    && (s.record.Some? ==> t.record.Some? && RecordAges(s.record.value, t.record.value))
    && (s.account.Some? ==> t.account.Some? && AccountAges(s.account.value, t.account.value))
  }

  predicate AuthorizedIn(s: Slot, k: Id) {
    s.account.Some? && k in s.account.value.entries && IsAuthorized(s.account.value.entries[k])
  }

  ghost predicate NothingAuthorized(s: Slot, t: Slot) { forall k :: AuthorizedIn(t, k) ==> AuthorizedIn(s, k) }

  predicate Ended(s: Slot, now: Time) {
    s.record.Some? && (!s.record.value.status.Active? || s.record.value.expiresAt <= now)
  }

  /** One step keeps the slot's invariant and only ages it; an ended grant authorizes nothing. */
  ghost predicate Good(g: Id, s: Slot, t: Slot, now: Time) {
    SlotInv(g, t) && SlotAges(s, t) && (Ended(s, now) ==> NothingAuthorized(s, t))
  }

  lemma SlotAgesIsTransitive(s: Slot, t: Slot, u: Slot)
    requires SlotAges(s, t) && SlotAges(t, u)
    ensures SlotAges(s, u)
  {}

  // ---------------------------------------------------------------- runs

  datatype Op =
    | Ensure(reg: Registration, now: Time)
    | Get(grantId: Id, now: Time)
    | Revoke(grantId: Id, now: Time)
    | DoReserve(grantId: Id, key: Id, budget: GrantBudget, now: Time)
    | DoMarkUnknown(grantId: Id, key: Id, now: Time)
    | DoEnsureUnknown(grantId: Id, key: Id, budget: GrantBudget, now: Time)
    | DoSettle(grantId: Id, key: Id, usage: GrantUsage, now: Time)
  {
    function Target(): Id { if Ensure? then reg.grant.grantId else grantId }
  }

  function Do(l: Ledger, digestOf: Grant -> Id, op: Op): Ledger {
    match op
    case Ensure(reg, now) => EnsureIn(l, digestOf, reg, now).0
    case Get(g, now) => Look(l, g, now)
    case Revoke(g, now) => RevokeIn(l, g, now).0
    case DoReserve(g, k, budget, now) => ReserveIn(l, g, k, budget, now).0
    case DoMarkUnknown(g, k, now) => MarkUnknownIn(l, g, k, now).0
    case DoEnsureUnknown(g, k, budget, now) => EnsureUnknownIn(l, g, k, budget, now).0
    case DoSettle(g, k, usage, now) => SettleIn(l, g, k, usage, now).0
  }

  function Run(l: Ledger, digestOf: Grant -> Id, ops: seq<Op>): Ledger {
    if ops == [] then l else Do(Run(l, digestOf, ops[..|ops| - 1]), digestOf, ops[|ops| - 1])
  }

  /** An operation touches only its own grant. */
  lemma OthersUntouched(l: Ledger, digestOf: Grant -> Id, op: Op, h: Id)
    requires h != op.Target()
    ensures View(Do(l, digestOf, op), h) == View(l, h)
  {}

  // ---------------------------------------------------------------- one account

  lemma SumsUpdate(m: map<Id, Entry>, k: Id, e: Entry)
    ensures Sum(m[k := e], ChargedTokens) == Sum(m, ChargedTokens) - (if k in m then ChargedTokens(m[k]) else 0.0) + ChargedTokens(e)
    ensures Sum(m[k := e], ChargedMoney) == Sum(m, ChargedMoney) - (if k in m then ChargedMoney(m[k]) else 0.0) + ChargedMoney(e)
    ensures Sum(m[k := e], SettledTokens) == Sum(m, SettledTokens) - (if k in m then SettledTokens(m[k]) else 0.0) + SettledTokens(e)
    ensures Sum(m[k := e], SettledMoney) == Sum(m, SettledMoney) - (if k in m then SettledMoney(m[k]) else 0.0) + SettledMoney(e)
    ensures Sum(m, SettledTokens) <= Sum(m, ChargedTokens) && Sum(m, SettledMoney) <= Sum(m, ChargedMoney)
  {
    SumUpdate(m, k, e, ChargedTokens);
    SumUpdate(m, k, e, ChargedMoney);
    SumUpdate(m, k, e, SettledTokens);
    SumUpdate(m, k, e, SettledMoney);
    SumLeq(m, SettledTokens, ChargedTokens);
    SumLeq(m, SettledMoney, ChargedMoney);
  }

  function Put(a: Account, k: Id, e: Entry): Account { a.(entries := a.entries[k := e]) }

  /** A new call adds an entry that has charged nothing yet. */
  lemma AdmittingBalances(a: Account, k: Id, e: Entry)
    requires Balanced(a) && k !in a.entries && CallsLeft(a) && (e.state.Reserved? || e.state.Unknown?)
    ensures Balanced(Put(a.(usedCalls := a.usedCalls + 1), k, e))
  {
    SumsUpdate(a.entries, k, e);
    assert a.entries[k := e].Keys == a.entries.Keys + {k};
  }

  /** Rewriting a waiting entry of `was` to `e`, in the account `a` that charged it. */
  ghost predicate Rewrites(was: Account, k: Id, a: Account, e: Entry) {
    && k in was.entries && !was.entries[k].state.Settled? && !was.entries[k].state.Rejected?
    && a.budget == was.budget && a.usedCalls == was.usedCalls && a.entries == was.entries
    && a.usedTokens as real == was.usedTokens as real + ChargedTokens(e)
    && a.usedMoney == was.usedMoney + ChargedMoney(e)
    && !e.state.Reserved?
    && (e.state.Settled? ==> !OverBudget(a))
    && (e.state == Rejected(ExceededTokens) ==> a.budget.tokens.Some? && a.usedTokens > a.budget.tokens.value)
    && (e.state == Rejected(ExceededMoney) ==> a.budget.money.Some? && a.usedMoney > a.budget.money.value)
  }

  lemma RewritingConserves(was: Account, k: Id, a: Account, e: Entry)
    requires Balanced(was) && Rewrites(was, k, a, e)
    ensures Conserved(Put(a, k, e)) && WithinBudget(Put(a, k, e))
  {
    SumsUpdate(was.entries, k, e);
    assert a.entries[k := e].Keys == was.entries.Keys;
  }

  lemma RewritingIsOver(was: Account, k: Id, a: Account, e: Entry)
    requires RejectionsAreOver(was) && Rewrites(was, k, a, e)
    ensures RejectionsAreOver(Put(a, k, e))
  {
    var after := Put(a, k, e);
    forall j | j in after.entries && after.entries[j].state.Rejected?
      ensures match after.entries[j].state.why
        case ExceededTokens => after.budget.tokens.Some? && after.usedTokens > after.budget.tokens.value
        case ExceededMoney => after.budget.money.Some? && after.usedMoney > after.budget.money.value
    {
      if j != k { assert was.entries[j].state.Rejected?; }
    }
  }

  // ---------------------------------------------------------------- one slot

  lemma AgingIsGood(g: Id, s: Slot, now: Time)
    requires SlotInv(g, s) && s.record.Some?
    ensures Good(g, s, s.(record := Some(Aged(s.record.value, now))), now)
  {}

  lemma RevokingIsGood(g: Id, s: Slot, now: Time)
    requires SlotInv(g, s) && s.record.Some? && !s.record.value.status.Revoked?
    ensures var r := s.record.value;
      Good(g, s, s.(record := Some(r.(status := Revoked, history := r.history + [Change(Revoked, now)]))), now)
  {}

  lemma RegisteringIsGood(g: Id, s: Slot, r: GrantRecord, budget: GrantBudget, now: Time)
    requires SlotInv(g, s) && s.record.None? && Lifecycle(r)
    ensures Good(g, s, Slot(Some(r), Some(if s.account.Some? then s.account.value else Account(budget, 0, 0, 0.0, map[]))), now)
  {}

  lemma AdmittingIsGood(g: Id, s: Slot, a: Account, k: Id, e: Entry, now: Time)
    requires SlotInv(g, s) && (s.account.Some? ==> a == s.account.value) && (s.account.None? ==> a == Account(a.budget, 0, 0, 0.0, map[]))
    requires k !in a.entries && CallsLeft(a) && (e.state.Reserved? || e.state.Unknown?) && e.authorization.None? && e.usage.None?
    ensures Good(g, s, s.(account := Some(Put(a.(usedCalls := a.usedCalls + 1), k, e))), now)
  {
    EmptyBalances(a.budget);
    AdmittingBalances(a, k, e);
    var after := Put(a.(usedCalls := a.usedCalls + 1), k, e);
    AdmittingAges(a, k, e);
    assert AllReceipted(s.record, g, after);
  }

  lemma EmptyBalances(budget: GrantBudget)
    ensures Balanced(Account(budget, 0, 0, 0.0, map[]))
  {}

  lemma AdmittingAges(a: Account, k: Id, e: Entry)
    requires k !in a.entries && !e.state.Settled?
    ensures AccountAges(a, Put(a.(usedCalls := a.usedCalls + 1), k, e))
  {}

  lemma RewritingIsGood(g: Id, s: Slot, a: Account, k: Id, e: Entry, now: Time)
    requires SlotInv(g, s) && s.account.Some? && Rewrites(s.account.value, k, a, e) && Receipted(s.record, g, k, e)
    requires IsAuthorized(e) ==> !Ended(s, now)
    ensures Good(g, s, s.(account := Some(Put(a, k, e))), now)
  {
    RewritingConserves(s.account.value, k, a, e);
    RewritingIsOver(s.account.value, k, a, e);
  }

  lemma GoodAfterAging(g: Id, s: Slot, t: Slot, now: Time)
    requires SlotInv(g, s) && s.record.Some? && Good(g, s.(record := Some(Aged(s.record.value, now))), t, now)
    ensures Good(g, s, t, now)
  {
    AgingIsGood(g, s, now);
    SlotAgesIsTransitive(s, s.(record := Some(Aged(s.record.value, now))), t);
  }

  function Looked(s: Slot, now: Time): Slot {
    if s.record.Some? then s.(record := Some(Aged(s.record.value, now))) else s
  }

  lemma LookIsGood(g: Id, s: Slot, now: Time)
    requires SlotInv(g, s)
    ensures Good(g, s, Looked(s, now), now)
  {
    if s.record.Some? { AgingIsGood(g, s, now); } else { NothingIsGood(g, s, now); }
  }

  lemma NothingIsGood(g: Id, s: Slot, now: Time)
    requires SlotInv(g, s)
    ensures Good(g, s, s, now)
  {}

  // ---------------------------------------------------------------- one operation

  lemma EnsureStep(l: Ledger, digestOf: Grant -> Id, reg: Registration, now: Time)
    requires var g := reg.grant.grantId; SlotInv(g, View(l, g))
    ensures var g := reg.grant.grantId; Good(g, View(l, g), View(EnsureIn(l, digestOf, reg, now).0, g), now)
  {
    var g := reg.grant.grantId;
    var s, answer := View(l, g), EnsureIn(l, digestOf, reg, now);
    NothingIsGood(g, s, now);
    if answer.1.Ok? {
      if g in l.registrations { LookIsGood(g, s, now); } else { RegisteringIsGood(g, s, answer.1.value, reg.grant.budget, now); }
    }
  }

  lemma AdmitStep(l: Ledger, g: Id, k: Id, budget: GrantBudget, state: EntryState, now: Time)
    requires SlotInv(g, View(l, g)) && (state.Reserved? || state.Unknown?)
    requires var a := AccountOf(l, g, budget); k !in a.entries && CallsLeft(a)
    ensures var a := AccountOf(l, g, budget);
      Good(g, View(l, g),
           View(WithEntry(Look(l, g, now), g, a.(usedCalls := a.usedCalls + 1), k, Entry(state, now, None, None)), g), now)
  {
    var s, a, e := View(l, g), AccountOf(l, g, budget), Entry(state, now, None, None);
    LookIsGood(g, s, now);
    AdmittingIsGood(g, Looked(s, now), a, k, e, now);
    if s.record.Some? { GoodAfterAging(g, s, Looked(s, now).(account := Some(Put(a.(usedCalls := a.usedCalls + 1), k, e))), now); }
  }

  lemma RewriteStep(l: Ledger, g: Id, a: Account, k: Id, e: Entry, now: Time)
    requires SlotInv(g, View(l, g)) && g in l.grants && Rewrites(l.grants[g], k, a, e) && Receipted(View(l, g).record, g, k, e)
    requires IsAuthorized(e) ==> !Ended(View(l, g), now)
    ensures Good(g, View(l, g), View(WithEntry(l, g, a, k, e), g), now)
  {
    RewritingIsGood(g, View(l, g), a, k, e, now);
  }

  lemma MarkUnknownStep(l: Ledger, g: Id, k: Id, now: Time)
    requires SlotInv(g, View(l, g))
    ensures Good(g, View(l, g), View(MarkUnknownIn(l, g, k, now).0, g), now)
  {
    NothingIsGood(g, View(l, g), now);
    if HasEntry(l, g, k) && !EntryOf(l, g, k).state.Settled? && !EntryOf(l, g, k).state.Rejected? {
      assert Receipted(View(l, g).record, g, k, EntryOf(l, g, k));
      RewriteStep(l, g, l.grants[g], k, EntryOf(l, g, k).(state := Unknown, updatedAt := now), now);
    }
  }

  predicate Waits(l: Ledger, g: Id, k: Id) {
    HasEntry(l, g, k) && !EntryOf(l, g, k).state.Settled? && !EntryOf(l, g, k).state.Rejected?
  }

  lemma SettlingClosedChangesNothing(l: Ledger, g: Id, k: Id, usage: GrantUsage, now: Time)
    requires SlotInv(g, View(l, g)) && !Waits(l, g, k)
    ensures SettleIn(l, g, k, usage, now).0 == l
  {
    if HasEntry(l, g, k) { assert Receipted(View(l, g).record, g, k, EntryOf(l, g, k)); }
  }

  lemma RejectStep(l: Ledger, g: Id, k: Id, usage: GrantUsage, why: Exceeded, a: Account, now: Time)
    requires SlotInv(g, View(l, g)) && Waits(l, g, k)
    requires var e := EntryOf(l, g, k).(state := Rejected(why), usage := Some(usage), updatedAt := now);
      Rewrites(l.grants[g], k, a, e)
    ensures var e := EntryOf(l, g, k).(state := Rejected(why), usage := Some(usage), updatedAt := now);
      Good(g, View(l, g), View(WithEntry(l, g, a, k, e), g), now)
  {
    assert Receipted(View(l, g).record, g, k, EntryOf(l, g, k));
    RewriteStep(l, g, a, k, EntryOf(l, g, k).(state := Rejected(why), usage := Some(usage), updatedAt := now), now);
  }

  lemma OverTokensStep(l: Ledger, g: Id, k: Id, usage: GrantUsage, now: Time)
    requires SlotInv(g, View(l, g)) && Waits(l, g, k)
    requires var a := l.grants[g]; a.budget.tokens.Some? && a.usedTokens + Tokens(usage) > a.budget.tokens.value
    ensures Good(g, View(l, g), View(SettleIn(l, g, k, usage, now).0, g), now)
  {
    var a := l.grants[g];
    RejectStep(l, g, k, usage, ExceededTokens, a.(usedTokens := a.usedTokens + Tokens(usage)), now);
  }

  lemma OverMoneyStep(l: Ledger, g: Id, k: Id, usage: GrantUsage, now: Time)
    requires SlotInv(g, View(l, g)) && Waits(l, g, k)
    requires var a := l.grants[g]; !(a.budget.tokens.Some? && a.usedTokens + Tokens(usage) > a.budget.tokens.value)
    requires var a := l.grants[g]; a.budget.money.Some? && a.usedMoney + Money(usage) > a.budget.money.value
    ensures Good(g, View(l, g), View(SettleIn(l, g, k, usage, now).0, g), now)
  {
    var a := l.grants[g];
    RejectStep(l, g, k, usage, ExceededMoney, a.(usedMoney := a.usedMoney + Money(usage)), now);
  }

  lemma AcceptStep(l: Ledger, g: Id, k: Id, usage: GrantUsage, now: Time)
    requires SlotInv(g, View(l, g)) && Waits(l, g, k)
    requires var a := l.grants[g];
      !OverBudget(a.(usedTokens := a.usedTokens + Tokens(usage), usedMoney := a.usedMoney + Money(usage)))
    ensures Good(g, View(l, g), View(SettleIn(l, g, k, usage, now).0, g), now)
  {
    var s, seen, a := View(l, g), Look(l, g, now), l.grants[g];
    var after := a.(usedTokens := a.usedTokens + Tokens(usage), usedMoney := a.usedMoney + Money(usage));
    var settled := Entry(Settled, now, Some(usage), Some(Authorize(seen, g, k, now)));
    var next := WithEntry(seen, g, after, k, settled);
    assert SettleIn(l, g, k, usage, now).0 == next;
    LookIsGood(g, s, now);
    assert View(seen, g) == Looked(s, now);
    RewriteStep(seen, g, after, k, settled, now);
    if s.record.Some? { GoodAfterAging(g, s, View(next, g), now); }
  }

  lemma SettleStep(l: Ledger, g: Id, k: Id, usage: GrantUsage, now: Time)
    requires SlotInv(g, View(l, g))
    ensures Good(g, View(l, g), View(SettleIn(l, g, k, usage, now).0, g), now)
  {
    if !Waits(l, g, k) {
      SettlingClosedChangesNothing(l, g, k, usage, now);
      NothingIsGood(g, View(l, g), now);
    } else {
      var a := l.grants[g];
      if a.budget.tokens.Some? && a.usedTokens + Tokens(usage) > a.budget.tokens.value {
        OverTokensStep(l, g, k, usage, now);
      } else if a.budget.money.Some? && a.usedMoney + Money(usage) > a.budget.money.value {
        OverMoneyStep(l, g, k, usage, now);
      } else {
        AcceptStep(l, g, k, usage, now);
      }
    }
  }

  lemma LookStep(l: Ledger, g: Id, now: Time)
    requires SlotInv(g, View(l, g))
    ensures Good(g, View(l, g), View(Look(l, g, now), g), now) && Good(g, View(l, g), View(l, g), now)
  {
    LookIsGood(g, View(l, g), now);
    NothingIsGood(g, View(l, g), now);
    assert View(Look(l, g, now), g) == Looked(View(l, g), now);
  }

  lemma ReserveStep(l: Ledger, g: Id, k: Id, budget: GrantBudget, now: Time)
    requires SlotInv(g, View(l, g))
    ensures Good(g, View(l, g), View(ReserveIn(l, g, k, budget, now).0, g), now)
  {
    LookStep(l, g, now);
    if ReserveIn(l, g, k, budget, now).1.Ok? { AdmitStep(l, g, k, budget, Reserved, now); }
  }

  lemma EnsureUnknownStep(l: Ledger, g: Id, k: Id, budget: GrantBudget, now: Time)
    requires SlotInv(g, View(l, g))
    ensures Good(g, View(l, g), View(EnsureUnknownIn(l, g, k, budget, now).0, g), now)
  {
    LookStep(l, g, now);
    if EnsureUnknownIn(l, g, k, budget, now).1.Ok? && !HasEntry(l, g, k) { AdmitStep(l, g, k, budget, Unknown, now); }
  }

  lemma RevokeStep(l: Ledger, g: Id, now: Time)
    requires SlotInv(g, View(l, g))
    ensures Good(g, View(l, g), View(RevokeIn(l, g, now).0, g), now)
  {
    var s := View(l, g);
    NothingIsGood(g, s, now);
    if s.record.Some? && !s.record.value.status.Revoked? { RevokingIsGood(g, s, now); }
  }

  lemma StepIsGood(l: Ledger, digestOf: Grant -> Id, op: Op)
    requires SlotInv(op.Target(), View(l, op.Target()))
    ensures Good(op.Target(), View(l, op.Target()), View(Do(l, digestOf, op), op.Target()), op.now)
  {
    var g := op.Target();
    match op
    case Ensure(reg, now) => EnsureStep(l, digestOf, reg, now);
    case Get(_, now) => LookStep(l, g, now);
    case Revoke(_, now) => RevokeStep(l, g, now);
    case DoReserve(_, k, budget, now) => ReserveStep(l, g, k, budget, now);
    case DoMarkUnknown(_, k, now) => MarkUnknownStep(l, g, k, now);
    case DoEnsureUnknown(_, k, budget, now) => EnsureUnknownStep(l, g, k, budget, now);
    case DoSettle(_, k, usage, now) => SettleStep(l, g, k, usage, now);
  }

  lemma {:induction false} EveryRunIsGood(l: Ledger, digestOf: Grant -> Id, ops: seq<Op>, g: Id)
    requires SlotInv(g, View(l, g))
    ensures SlotInv(g, View(Run(l, digestOf, ops), g)) && SlotAges(View(l, g), View(Run(l, digestOf, ops), g))
  {
    if ops == [] {
      NothingIsGood(g, View(l, g), 0);
    } else {
      var before, op := Run(l, digestOf, ops[..|ops| - 1]), ops[|ops| - 1];
      EveryRunIsGood(l, digestOf, ops[..|ops| - 1], g);
      if op.Target() == g {
        StepIsGood(before, digestOf, op);
        SlotAgesIsTransitive(View(l, g), View(before, g), View(Run(l, digestOf, ops), g));
      } else {
        OthersUntouched(before, digestOf, op, g);
      }
    }
  }

  // ---------------------------------------------------------------- main results

  /** Accounting conserves over every run from an empty ledger: one call per entry, settled
      amounts within budget, and the counters are exactly what entries charged. */
  lemma EveryRunConserves(digestOf: Grant -> Id, ops: seq<Op>, g: Id)
    requires g in Run(Ledger(map[], map[]), digestOf, ops).grants
    ensures var a := Run(Ledger(map[], map[]), digestOf, ops).grants[g];
      Conserved(a) && WithinBudget(a) && RejectionsAreOver(a)
  {
    EveryRunIsGood(Ledger(map[], map[]), digestOf, ops, g);
  }

  /** Once tokens or money are over budget, no later settlement of the grant succeeds. */
  lemma OverBudgetIsFinal(l: Ledger, digestOf: Grant -> Id, ops: seq<Op>, g: Id, k: Id)
    requires Inv(l) && g in l.grants && OverBudget(l.grants[g])
    requires HasEntry(Run(l, digestOf, ops), g, k) && EntryOf(Run(l, digestOf, ops), g, k).state.Settled?
    ensures HasEntry(l, g, k) && EntryOf(l, g, k).state.Settled?
  {
    assert SlotInv(g, View(l, g));
    EveryRunIsGood(l, digestOf, ops, g);
  }

  /** A receipt never changes, and settling again, at any later time, returns it. */
  lemma ReceiptsAreFrozen(l: Ledger, digestOf: Grant -> Id, ops: seq<Op>, g: Id, k: Id, usage: GrantUsage, now: Time)
    requires Inv(l) && HasEntry(l, g, k) && EntryOf(l, g, k).state.Settled?
    ensures var later := Run(l, digestOf, ops);
      && HasEntry(later, g, k) && EntryOf(later, g, k).authorization == EntryOf(l, g, k).authorization
      && EntryOf(later, g, k).usage == EntryOf(l, g, k).usage && EntryOf(l, g, k).authorization.Some?
      && SettleIn(later, g, k, usage, now) == (later, Ok(EntryOf(l, g, k).authorization.value))
  {
    assert SlotInv(g, View(l, g));
    EveryRunIsGood(l, digestOf, ops, g);
    assert Receipted(View(l, g).record, g, k, EntryOf(l, g, k));
    assert EntryAges(EntryOf(l, g, k), EntryOf(Run(l, digestOf, ops), g, k));
  }

  /** Settling a waiting call authorizes exactly when its grant is registered, active and unexpired
      at that step, and isolates it otherwise; the grant then is recorded with that very status. */
  lemma AuthorizedExactlyWhenActive(l: Ledger, g: Id, k: Id, usage: GrantUsage, now: Time)
    requires HasEntry(l, g, k) && !EntryOf(l, g, k).state.Settled?
    requires SettleIn(l, g, k, usage, now).1.Ok?
    ensures var (next, answer) := SettleIn(l, g, k, usage, now);
      && (answer.value.decision.Authorized? <==> g in l.registrations && !Ended(View(l, g), now))
      && EntryOf(next, g, k).state.Settled? && EntryOf(next, g, k).authorization == Some(answer.value)
      && answer.value.status == (if g in next.registrations then Some(next.registrations[g].status) else None)
  {}

  /** An entry becomes settled by nothing but its own settlement. */
  lemma OnlySettlingSettles(l: Ledger, digestOf: Grant -> Id, op: Op, g: Id, k: Id)
    requires HasEntry(Do(l, digestOf, op), g, k) && EntryOf(Do(l, digestOf, op), g, k).state.Settled?
    requires !(HasEntry(l, g, k) && EntryOf(l, g, k).state.Settled?)
    ensures op.DoSettle? && op.grantId == g && op.key == k && HasEntry(l, g, k) && SettleIn(l, g, k, op.usage, op.now).1.Ok?
  {
    if op.Target() != g { OthersUntouched(l, digestOf, op, g); }
  }

  /** Every receipt in a reachable ledger was issued by one settlement of the run, and it authorizes
      exactly when the grant was registered, active and unexpired at that moment. */
  lemma {:induction false} EveryReceiptHasItsMoment(digestOf: Grant -> Id, ops: seq<Op>, g: Id, k: Id) returns (n: nat)
    requires var l := Run(Ledger(map[], map[]), digestOf, ops); HasEntry(l, g, k) && EntryOf(l, g, k).state.Settled?
    ensures n < |ops| && ops[n].DoSettle? && ops[n].grantId == g && ops[n].key == k
    ensures var before, e := Run(Ledger(map[], map[]), digestOf, ops[..n]), EntryOf(Run(Ledger(map[], map[]), digestOf, ops), g, k);
      && HasEntry(before, g, k) && !EntryOf(before, g, k).state.Settled? && e.authorization.Some?
      && e.authorization.value.settledAt == ops[n].now
      && (IsAuthorized(e) <==> g in before.registrations && !Ended(View(before, g), ops[n].now))
  {
    var m := |ops| - 1;
    var empty := Ledger(map[], map[]);
    var before := Run(empty, digestOf, ops[..m]);
    if HasEntry(before, g, k) && EntryOf(before, g, k).state.Settled? {
      n := EveryReceiptHasItsMoment(digestOf, ops[..m], g, k);
      assert ops[..m][..n] == ops[..n] && ops[..m][n] == ops[n];
      EveryRunIsGood(empty, digestOf, ops[..m], g);
      if ops[m].Target() == g { StepIsGood(before, digestOf, ops[m]); } else { OthersUntouched(before, digestOf, ops[m], g); }
    } else {
      n := m;
      OnlySettlingSettles(before, digestOf, ops[m], g, k);
      AuthorizedExactlyWhenActive(before, g, k, ops[m].usage, ops[m].now);
    }
  }

  /** A grant that is not active stays so forever, and a revoked one stays revoked. */
  lemma StatusNeverReturns(l: Ledger, digestOf: Grant -> Id, ops: seq<Op>, g: Id)
    requires Inv(l) && g in l.registrations
    ensures var later := Run(l, digestOf, ops);
      && g in later.registrations && Lifecycle(later.registrations[g])
      && (!l.registrations[g].status.Active? ==> !later.registrations[g].status.Active?)
      && (l.registrations[g].status.Revoked? ==> later.registrations[g].status.Revoked?)
      && later.registrations[g].digest == l.registrations[g].digest && later.registrations[g].expiresAt == l.registrations[g].expiresAt
  {
    assert SlotInv(g, View(l, g));
    EveryRunIsGood(l, digestOf, ops, g);
  }

  /** After a grant ended, by revocation or because every later step runs past its end, no run
      authorizes anything under it: a late result can only be isolated. */
  lemma {:induction false} NothingAuthorizedAfterEnd(l: Ledger, digestOf: Grant -> Id, ops: seq<Op>, g: Id)
    requires Inv(l) && g in l.registrations
    requires !l.registrations[g].status.Active?
             || forall i :: 0 <= i < |ops| ==> l.registrations[g].expiresAt <= ops[i].now
    ensures NothingAuthorized(View(l, g), View(Run(l, digestOf, ops), g))
  {
    if ops != [] {
      var n := |ops| - 1;
      var before, op := Run(l, digestOf, ops[..n]), ops[n];
      assert forall i :: 0 <= i < n ==> ops[..n][i] == ops[i];
      NothingAuthorizedAfterEnd(l, digestOf, ops[..n], g);
      StatusNeverReturns(l, digestOf, ops[..n], g);
      assert SlotInv(g, View(l, g));
      EveryRunIsGood(l, digestOf, ops[..n], g);
      if op.Target() == g { StepIsGood(before, digestOf, op); } else { OthersUntouched(before, digestOf, op, g); }
    }
  }
}
