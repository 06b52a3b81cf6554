/** The durable grant ledger of src/agent-ledger.ts: call, token and money accounting, the
    grant lifecycle and the authorization receipt. Every method is one `exclusive` section;
    what it changed is persisted even when it throws. */
module GrantLedger {
  import opened Basics

  /** Amounts of money, exact and never negative. */
  type Cost = x: real | 0.0 <= x

  datatype GrantBudget = GrantBudget(calls: Option<nat>, tokens: Option<nat>, money: Option<Cost>)

  datatype GrantUsage = GrantUsage(tokens: Option<nat>, money: Option<Cost>)

  datatype Status = Active | Revoked | Expired

  datatype Grant = Grant(
    grantId: Id, subject: Id, issuer: Id, taskId: Id, revocationRef: Id, expiresAt: Time, budget: GrantBudget)

  datatype Registration = Registration(grant: Grant, digest: Id, registeredAt: Option<Time>)

  datatype Change = Change(status: Status, at: Time)

  datatype GrantRecord = GrantRecord(
    digest: Id, subject: Id, issuer: Id, taskId: Id, revocationRef: Id, expiresAt: Time, status: Status,
    registeredAt: Time, history: seq<Change>)

  datatype Decision = Authorized | Isolated

  /** No status stands for `unregistered`. */
  datatype Receipt = Receipt(
    grantId: Id, key: Id, decision: Decision, status: Option<Status>, settledAt: Time, digest: Option<Id>)

  datatype Exceeded = ExceededTokens | ExceededMoney

  /** A rejection carries which budget it exceeded, which the source says only in the error it throws. */
  datatype EntryState = Reserved | Unknown | Settled | Rejected(why: Exceeded)

  datatype Entry = Entry(state: EntryState, updatedAt: Time, usage: Option<GrantUsage>, authorization: Option<Receipt>)

  datatype Account = Account(budget: GrantBudget, usedCalls: nat, usedTokens: nat, usedMoney: Cost, entries: map<Id, Entry>)

  datatype Ledger = Ledger(registrations: map<Id, GrantRecord>, grants: map<Id, Account>)

  datatype LedgerError =
    | RevocationRefMissing | DigestMismatch | GrantChanged | BindingChanged | GrantExpired | UnknownGrant
    | NotUsable(status: Status) | BudgetChanged | AlreadySettled | AlreadyReserved | CallsExhausted
    | ReservationMissing | AlreadyRejected | TokensExhausted | MoneyExhausted

  type Answer<T> = (Ledger, Result<T, LedgerError>)

  // ---------------------------------------------------------------- the grant lifecycle

  function Aged(r: GrantRecord, now: Time): GrantRecord {
    if r.status.Active? && r.expiresAt <= now
    then r.(status := Expired, history := r.history + [Change(Expired, now)]) else r
  }

  /** The ledger after `grantId` was looked at: an active grant past its end is expired. */
  function Look(l: Ledger, grantId: Id, now: Time): Ledger {
    if grantId !in l.registrations then l
    else l.(registrations := l.registrations[grantId := Aged(l.registrations[grantId], now)])
  }

  function SameBinding(r: GrantRecord, g: Grant): bool {
    r.subject == g.subject && r.issuer == g.issuer && r.taskId == g.taskId && r.revocationRef == g.revocationRef
  }

  function EnsureIn(l: Ledger, digestOf: Grant -> Id, reg: Registration, now: Time): Answer<GrantRecord> {
    var g := reg.grant;
    if g.revocationRef == "" then (l, Err(RevocationRefMissing))
    else if reg.digest != digestOf(g) then (l, Err(DigestMismatch))
    else if g.grantId in l.registrations then
      var existing := l.registrations[g.grantId];
      if existing.digest != reg.digest then (l, Err(GrantChanged))
      else if !SameBinding(existing, g) then (l, Err(BindingChanged))
      else (Look(l, g.grantId, now), Ok(Aged(existing, now)))
    else if g.expiresAt <= now then (l, Err(GrantExpired))
    else
      var at := if reg.registeredAt.Some? then reg.registeredAt.value else now;
      var created := GrantRecord(reg.digest, g.subject, g.issuer, g.taskId, g.revocationRef, g.expiresAt, Active, at, [Change(Active, at)]);
      var grants := if g.grantId in l.grants then l.grants else l.grants[g.grantId := Account(g.budget, 0, 0, 0.0, map[])];
      (Ledger(l.registrations[g.grantId := created], grants), Ok(created))
  }

  function RevokeIn(l: Ledger, grantId: Id, at: Time): Answer<GrantRecord> {
    if grantId !in l.registrations then (l, Err(UnknownGrant))
    else
      var r := l.registrations[grantId];
      if r.status.Revoked? then (l, Ok(r))
      else
        var revoked := r.(status := Revoked, history := r.history + [Change(Revoked, at)]);
        (l.(registrations := l.registrations[grantId := revoked]), Ok(revoked))
  }

  /** An unregistered grant is usable: direct ledger callers of earlier versions. */
  predicate Usable(l: Ledger, grantId: Id) {
    grantId in l.registrations ==> l.registrations[grantId].status.Active?
  }

  // ---------------------------------------------------------------- accounting

  function AccountOf(l: Ledger, grantId: Id, budget: GrantBudget): Account {
    if grantId in l.grants then l.grants[grantId] else Account(budget, 0, 0, 0.0, map[])
  }

  predicate CallsLeft(a: Account) { a.budget.calls.Some? ==> a.usedCalls < a.budget.calls.value }

  function WithEntry(l: Ledger, grantId: Id, a: Account, key: Id, e: Entry): Ledger {
    l.(grants := l.grants[grantId := a.(entries := a.entries[key := e])])
  }

  function ReserveIn(l: Ledger, grantId: Id, key: Id, budget: GrantBudget, now: Time): Answer<()> {
    var seen := Look(l, grantId, now);
    var a := AccountOf(l, grantId, budget);
    if !Usable(seen, grantId) then (seen, Err(NotUsable(seen.registrations[grantId].status)))
    else if a.budget != budget then (seen, Err(BudgetChanged))
    else if key in a.entries then (seen, Err(if a.entries[key].state.Settled? then AlreadySettled else AlreadyReserved))
    else if !CallsLeft(a) then (seen, Err(CallsExhausted))
    else (WithEntry(seen, grantId, a.(usedCalls := a.usedCalls + 1), key, Entry(Reserved, now, None, None)), Ok(()))
  }

  predicate HasEntry(l: Ledger, grantId: Id, key: Id) { grantId in l.grants && key in l.grants[grantId].entries }

  function EntryOf(l: Ledger, grantId: Id, key: Id): Entry
    requires HasEntry(l, grantId, key)
  {
    l.grants[grantId].entries[key]
  }

  function MarkUnknownIn(l: Ledger, grantId: Id, key: Id, now: Time): Answer<()> {
    if !HasEntry(l, grantId, key) then (l, Err(ReservationMissing))
    else
      var e := EntryOf(l, grantId, key);
      if e.state.Settled? || e.state.Rejected? then (l, Ok(()))
      else (WithEntry(l, grantId, l.grants[grantId], key, e.(state := Unknown, updatedAt := now)), Ok(()))
  }

  function EnsureUnknownIn(l: Ledger, grantId: Id, key: Id, budget: GrantBudget, now: Time): Answer<()> {
    var a := AccountOf(l, grantId, budget);
    if a.budget != budget then (l, Err(BudgetChanged))
    else if key in a.entries then (l, Ok(()))
    else
      var seen := Look(l, grantId, now);
      if !Usable(seen, grantId) then (seen, Err(NotUsable(seen.registrations[grantId].status)))
      else if !CallsLeft(a) then (seen, Err(CallsExhausted))
      else (WithEntry(seen, grantId, a.(usedCalls := a.usedCalls + 1), key, Entry(Unknown, now, None, None)), Ok(()))
  }

  function Tokens(u: GrantUsage): nat { if u.tokens.Some? then u.tokens.value else 0 }

  function Money(u: GrantUsage): Cost { if u.money.Some? then u.money.value else 0.0 }

  /** What settling decides from the registration as it stands. */
  function Authorize(l: Ledger, grantId: Id, key: Id, at: Time): Receipt {
    if grantId !in l.registrations then Receipt(grantId, key, Isolated, None, at, None)
    else
      var r := l.registrations[grantId];
      Receipt(grantId, key, if r.status.Active? then Authorized else Isolated, Some(r.status), at, Some(r.digest))
  }

  function SettleIn(l: Ledger, grantId: Id, key: Id, usage: GrantUsage, now: Time): Answer<Receipt> {
    if !HasEntry(l, grantId, key) then (l, Err(ReservationMissing))
    else
      var a, e := l.grants[grantId], EntryOf(l, grantId, key);
      match e.state
      case Settled =>
        if e.authorization.Some? then (l, Ok(e.authorization.value))
        else
          var seen := Look(l, grantId, now);
          var receipt := Authorize(seen, grantId, key, e.updatedAt);
          (WithEntry(seen, grantId, a, key, e.(authorization := Some(receipt))), Ok(receipt))
      case Rejected(_) => (l, Err(AlreadyRejected))
      case _ =>
        var tokens, money := a.usedTokens + Tokens(usage), a.usedMoney + Money(usage);
        if a.budget.tokens.Some? && tokens > a.budget.tokens.value then
          (WithEntry(l, grantId, a.(usedTokens := tokens), key, e.(state := Rejected(ExceededTokens), usage := Some(usage), updatedAt := now)),
           Err(TokensExhausted))
        else if a.budget.money.Some? && money > a.budget.money.value then
          (WithEntry(l, grantId, a.(usedMoney := money), key, e.(state := Rejected(ExceededMoney), usage := Some(usage), updatedAt := now)),
           Err(MoneyExhausted))
        else
          var seen := Look(l, grantId, now);
          var receipt := Authorize(seen, grantId, key, now);
          (WithEntry(seen, grantId, a.(usedTokens := tokens, usedMoney := money), key, Entry(Settled, now, Some(usage), Some(receipt))),
           Ok(receipt))
  }

  // ---------------------------------------------------------------- the ledger

  class FileGrantLedger {
    var registrations: map<Id, GrantRecord>
    var grants: map<Id, Account>
    const digestOf: Grant -> Id

    function State(): Ledger
      reads this
    {
      Ledger(registrations, grants)
    }

    constructor (digestOf: Grant -> Id)
      ensures State() == Ledger(map[], map[]) && this.digestOf == digestOf
    {
      this.digestOf := digestOf;
      registrations, grants := map[], map[];
    }

    /** `expireGrant`, behind the checks its callers make. */
    method ExpireIfDue(grantId: Id, now: Time)
      modifies this`registrations
      ensures State() == Look(old(State()), grantId, now)
    {
      if grantId !in registrations { return; }
      var current := registrations[grantId];
      if current.status.Active? && current.expiresAt <= now {
        current := current.(status := Expired, history := current.history + [Change(Expired, now)]);
      }
      registrations := registrations[grantId := current];
    }

    method EnsureGrant(reg: Registration, now: Time) returns (answer: Result<GrantRecord, LedgerError>)
      modifies this
      ensures (State(), answer) == EnsureIn(old(State()), digestOf, reg, now)
    {
      var g := reg.grant;
      if g.revocationRef == "" { return Err(RevocationRefMissing); }
      if reg.digest != digestOf(g) { return Err(DigestMismatch); }
      if g.grantId in registrations {
        var existing := registrations[g.grantId];
        if existing.digest != reg.digest { return Err(GrantChanged); }
        if !SameBinding(existing, g) { return Err(BindingChanged); }
        ExpireIfDue(g.grantId, now);
        return Ok(registrations[g.grantId]);
      }
      if g.expiresAt <= now { return Err(GrantExpired); }
      var at := if reg.registeredAt.Some? then reg.registeredAt.value else now;
      var created := GrantRecord(reg.digest, g.subject, g.issuer, g.taskId, g.revocationRef, g.expiresAt, Active, at, [Change(Active, at)]);
      registrations := registrations[g.grantId := created];
      if g.grantId !in grants { grants := grants[g.grantId := Account(g.budget, 0, 0, 0.0, map[])]; }
      return Ok(created);
    }

    method GetGrant(grantId: Id, now: Time) returns (r: Option<GrantRecord>)
      modifies this`registrations
      ensures State() == Look(old(State()), grantId, now)
      ensures r == if grantId in registrations then Some(registrations[grantId]) else None
    {
      ExpireIfDue(grantId, now);
      r := if grantId in registrations then Some(registrations[grantId]) else None;
    }

    method RevokeGrant(grantId: Id, at: Time) returns (answer: Result<GrantRecord, LedgerError>)
      modifies this`registrations
      ensures (State(), answer) == RevokeIn(old(State()), grantId, at)
    {
      if grantId !in registrations { return Err(UnknownGrant); }
      var current := registrations[grantId];
      if current.status.Revoked? { return Ok(current); }
      current := current.(status := Revoked, history := current.history + [Change(Revoked, at)]);
      registrations := registrations[grantId := current];
      return Ok(current);
    }

    method AssertUsable(grantId: Id, now: Time) returns (error: Option<LedgerError>)
      modifies this`registrations
      ensures State() == Look(old(State()), grantId, now)
      ensures error.None? <==> Usable(State(), grantId)
      ensures error.Some? ==> error == Some(NotUsable(registrations[grantId].status))
    {
      if grantId !in registrations { return None; }
      ExpireIfDue(grantId, now);
      return if registrations[grantId].status.Active? then None else Some(NotUsable(registrations[grantId].status));
    }

    method Reserve(grantId: Id, key: Id, budget: GrantBudget, now: Time) returns (answer: Result<(), LedgerError>)
      modifies this
      ensures (State(), answer) == ReserveIn(old(State()), grantId, key, budget, now)
    {
      var unusable := AssertUsable(grantId, now);
      if unusable.Some? { return Err(unusable.value); }
      if grantId in grants && grants[grantId].budget != budget { return Err(BudgetChanged); }
      var current := if grantId in grants then grants[grantId] else Account(budget, 0, 0, 0.0, map[]);
      if key in current.entries {
        return Err(if current.entries[key].state.Settled? then AlreadySettled else AlreadyReserved);
      }
      if current.budget.calls.Some? && current.usedCalls >= current.budget.calls.value { return Err(CallsExhausted); }
      current := current.(usedCalls := current.usedCalls + 1, entries := current.entries[key := Entry(Reserved, now, None, None)]);
      grants := grants[grantId := current];
      return Ok(());
    }

    method MarkUnknown(grantId: Id, key: Id, now: Time) returns (answer: Result<(), LedgerError>)
      modifies this`grants
      ensures (State(), answer) == MarkUnknownIn(old(State()), grantId, key, now)
    {
      if grantId !in grants || key !in grants[grantId].entries { return Err(ReservationMissing); }
      var e := grants[grantId].entries[key];
      if e.state.Settled? || e.state.Rejected? { return Ok(()); }
      Store(grantId, grants[grantId], key, e.(state := Unknown, updatedAt := now));
      return Ok(());
    }

    method Store(grantId: Id, a: Account, key: Id, e: Entry)
      modifies this`grants
      ensures State() == WithEntry(old(State()), grantId, a, key, e)
    {
      grants := grants[grantId := a.(entries := a.entries[key := e])];
    }

    method EnsureUnknown(grantId: Id, key: Id, budget: GrantBudget, now: Time) returns (answer: Result<(), LedgerError>)
      modifies this
      ensures (State(), answer) == EnsureUnknownIn(old(State()), grantId, key, budget, now)
    {
      if grantId in grants && grants[grantId].budget != budget { return Err(BudgetChanged); }
      var current := if grantId in grants then grants[grantId] else Account(budget, 0, 0, 0.0, map[]);
      if key !in current.entries {
        var unusable := AssertUsable(grantId, now);
        if unusable.Some? { return Err(unusable.value); }
        if current.budget.calls.Some? && current.usedCalls >= current.budget.calls.value { return Err(CallsExhausted); }
        current := current.(usedCalls := current.usedCalls + 1, entries := current.entries[key := Entry(Unknown, now, None, None)]);
      }
      grants := grants[grantId := current];
      assert key in AccountOf(old(State()), grantId, budget).entries ==> grants == old(grants);
      return Ok(());
    }

    method Settle(grantId: Id, key: Id, usage: GrantUsage, now: Time) returns (answer: Result<Receipt, LedgerError>)
      modifies this
      ensures (State(), answer) == SettleIn(old(State()), grantId, key, usage, now)
    {
      if grantId !in grants || key !in grants[grantId].entries { return Err(ReservationMissing); }
      var grant, e := grants[grantId], grants[grantId].entries[key];
      if e.state.Settled? {
        if e.authorization.Some? { return Ok(e.authorization.value); }
        ExpireIfDue(grantId, now);
        var fallback := Authorize(State(), grantId, key, e.updatedAt);
        Store(grantId, grant, key, e.(authorization := Some(fallback)));
        return Ok(fallback);
      }
      if e.state.Rejected? { return Err(AlreadyRejected); }
      var nextTokens, nextMoney := grant.usedTokens + Tokens(usage), grant.usedMoney + Money(usage);
      if grant.budget.tokens.Some? && nextTokens > grant.budget.tokens.value {
        Store(grantId, grant.(usedTokens := nextTokens), key, e.(state := Rejected(ExceededTokens), usage := Some(usage), updatedAt := now));
        return Err(TokensExhausted);
      }
      if grant.budget.money.Some? && nextMoney > grant.budget.money.value {
        Store(grantId, grant.(usedMoney := nextMoney), key, e.(state := Rejected(ExceededMoney), usage := Some(usage), updatedAt := now));
        return Err(MoneyExhausted);
      }
      ExpireIfDue(grantId, now);
      var receipt := Authorize(State(), grantId, key, now);
      Store(grantId, grant.(usedTokens := nextTokens, usedMoney := nextMoney), key, Entry(Settled, now, Some(usage), Some(receipt)));
      return Ok(receipt);
    }
  }
}
