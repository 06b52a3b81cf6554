/** The call protocol of src/agent-gateway.ts around the grant ledger: concurrent delegations,
    reconciliations and callbacks, each crashing anywhere. The in-memory cache of outcomes is
    left out; it only answers some calls without touching the ledger or the transport. */
module Delegation {
  import opened Basics
  import opened GrantLedger
  import opened GrantLedgerRuns

  datatype Request = Request(reg: Registration, key: Id, agent: Id, taskId: Id) {
    function GrantId(): Id { reg.grant.grantId }
    function Call(): (Id, Id) { (GrantId(), key) }
  }

  /** What a caller hands back: the outcome of a call, final or still pending, with its result if
      it has one. */
  datatype Delivery = Delivery(call: (Id, Id), final: bool, result: Option<Id>)

  /** Where one caller stands between two ledger sections. `Settling` remembers whether a
      failed accounting marks the call unknown, as `delegate` does and `reconcile` does not;
      `Marking` what is handed back once the call is marked, which after an error is nothing. */
  datatype Caller =
    | Checking(req: Request)
    | Reserving(req: Request)
    | Submitting(req: Request)
    | Awaiting(req: Request)
    | Settling(req: Request, usage: GrantUsage, result: Option<Id>, marks: bool)
    | Marking(req: Request, pending: Option<Option<Id>>)
    | Registering(req: Request)
    | EnsuringUnknown(req: Request)
    | Reconciling(req: Request)
    | Done

  /** `submitted` logs the calls handed to the transport, `delivered` the outcomes handed back
      with everything they hold; an isolated outcome is handed back without its result. */
  datatype World = World(ledger: Ledger, callers: map<nat, Caller>, submitted: seq<(Id, Id)>, delivered: seq<Delivery>)

  /** A transport answer: a terminal outcome, one that is still unknown or accepted, or an error.
      Either kind of outcome may carry a result. */
  datatype Reply = Terminal(usage: GrantUsage, result: Option<Id>) | Pending(result: Option<Id>) | Broken

  datatype Event =
    | Delegate(c: nat, req: Request)
    | Reconcile(c: nat, req: Request)
    | Advance(c: nat, now: Time, reply: Reply)
    | Crash(c: nat)
    | Direct(op: Op)

  predicate BoundTo(r: GrantRecord, req: Request) { r.subject == req.agent && r.taskId == req.taskId }

  function AfterEnsure(answer: Result<GrantRecord, LedgerError>, req: Request, now: Time, next: Caller, onlyActive: bool): Caller {
    if answer.Ok? && BoundTo(answer.value, req) && (onlyActive ==> answer.value.status.Active? && now < answer.value.expiresAt)
    then next else Done
  }

  function AdvanceCaller(w: World, c: Caller, digestOf: Grant -> Id, now: Time, reply: Reply): (World, Caller) {
    var l := w.ledger;
    match c
    case Checking(req) =>
      var (next, answer) := EnsureIn(l, digestOf, req.reg, now);
      (w.(ledger := next), AfterEnsure(answer, req, now, Reserving(req), true))
    case Reserving(req) =>
      var (next, answer) := ReserveIn(l, req.GrantId(), req.key, req.reg.grant.budget, now);
      (w.(ledger := next), if answer.Ok? then Submitting(req) else Done)
    case Submitting(req) => (w.(submitted := w.submitted + [req.Call()]), Awaiting(req))
    case Awaiting(req) =>
      (w.(ledger := if reply.Broken? then l else Look(l, req.GrantId(), now)),
       match reply
       case Terminal(usage, result) => Settling(req, usage, result, true)
       case Pending(result) => Marking(req, Some(result))
       case Broken => Marking(req, None))
    case Settling(req, usage, result, marks) =>
      var (next, answer) := SettleIn(l, req.GrantId(), req.key, usage, now);
      if answer.Ok? && answer.value.decision.Authorized?
      then (w.(ledger := next, delivered := w.delivered + [Delivery(req.Call(), true, result)]), Done)
      else (w.(ledger := next), if answer.Err? && marks then Marking(req, None) else Done)
    case Marking(req, pending) =>
      var (next, answer) := MarkUnknownIn(l, req.GrantId(), req.key, now);
      (w.(ledger := next,
          delivered := if answer.Ok? && pending.Some? then w.delivered + [Delivery(req.Call(), false, pending.value)] else w.delivered),
       Done)
    case Registering(req) =>
      var (next, answer) := EnsureIn(l, digestOf, req.reg, now);
      (w.(ledger := next), AfterEnsure(answer, req, now, EnsuringUnknown(req), false))
    case EnsuringUnknown(req) =>
      var (next, answer) := EnsureUnknownIn(l, req.GrantId(), req.key, req.reg.grant.budget, now);
      (w.(ledger := next), if answer.Ok? then Reconciling(req) else Done)
    case Reconciling(req) =>
      (w, match reply
          case Terminal(usage, result) => Settling(req, usage, result, false)
          case Pending(result) => Marking(req, Some(result))
          case Broken => Done)
    case Done => (w, Done)
  }

  function Next(w: World, digestOf: Grant -> Id, e: Event): World {
    match e
    case Delegate(c, req) => if c in w.callers then w else w.(callers := w.callers[c := Checking(req)])
    case Reconcile(c, req) => if c in w.callers then w else w.(callers := w.callers[c := Registering(req)])
    case Advance(c, now, reply) =>
      if c !in w.callers then w
      else
        var (next, at) := AdvanceCaller(w, w.callers[c], digestOf, now, reply);
        next.(callers := w.callers[c := at])
    case Crash(c) => w.(callers := w.callers - {c})
    case Direct(op) => w.(ledger := Do(w.ledger, digestOf, op))
  }

  function RunAll(w: World, digestOf: Grant -> Id, events: seq<Event>): World {
    if events == [] then w else Next(RunAll(w, digestOf, events[..|events| - 1]), digestOf, events[|events| - 1])
  }

  // ---------------------------------------------------------------- what ledger operations keep

  predicate Delivered(l: Ledger, call: (Id, Id)) {
    HasEntry(l, call.0, call.1) && EntryOf(l, call.0, call.1).state.Settled? && IsAuthorized(EntryOf(l, call.0, call.1))
  }

  predicate Registered(l: Ledger, req: Request) {
    req.GrantId() in l.registrations && BoundTo(l.registrations[req.GrantId()], req)
  }

  /** Entries, deliveries and registrations are never lost. */
  ghost predicate Keeps(l: Ledger, next: Ledger) {
    && (forall g, k :: HasEntry(l, g, k) ==> HasEntry(next, g, k))
    && (forall call :: Delivered(l, call) ==> Delivered(next, call))
    && (forall req :: Registered(l, req) ==> Registered(next, req))
  }

  lemma EntryIsKept(l: Ledger, digestOf: Grant -> Id, op: Op, g: Id, k: Id)
    requires HasEntry(l, g, k)
    ensures HasEntry(Do(l, digestOf, op), g, k)
    ensures Delivered(l, (g, k)) ==> Delivered(Do(l, digestOf, op), (g, k))
  {
    if g != op.Target() { OthersUntouched(l, digestOf, op, g); }
  }

  lemma RegistrationIsKept(l: Ledger, digestOf: Grant -> Id, op: Op, req: Request)
    requires Registered(l, req)
    ensures Registered(Do(l, digestOf, op), req)
  {}

  lemma OperationsKeep(l: Ledger, digestOf: Grant -> Id, op: Op)
    ensures Keeps(l, Do(l, digestOf, op))
  {
    forall g, k | HasEntry(l, g, k) ensures HasEntry(Do(l, digestOf, op), g, k) { EntryIsKept(l, digestOf, op, g, k); }
    forall call | Delivered(l, call) ensures Delivered(Do(l, digestOf, op), call) { EntryIsKept(l, digestOf, op, call.0, call.1); }
    forall req | Registered(l, req) ensures Registered(Do(l, digestOf, op), req) { RegistrationIsKept(l, digestOf, op, req); }
  }

  // ---------------------------------------------------------------- the protocol's invariant

  ghost predicate CallerInv(w: World, c: Caller) {
    && (c.Submitting? ==> HasEntry(w.ledger, c.req.GrantId(), c.req.key) && c.req.Call() !in w.submitted)
    && (c.Reserving? ==> Registered(w.ledger, c.req))
  }

  ghost predicate ProtocolInv(w: World) {
    && NoDuplicates(w.submitted)
    && (forall call :: call in w.submitted ==> HasEntry(w.ledger, call.0, call.1))
    && (forall d :: d in w.delivered && d.final ==> Delivered(w.ledger, d.call))
    && (forall c :: c in w.callers ==> CallerInv(w, w.callers[c]))
    && (forall c, d :: c in w.callers && d in w.callers && c != d && w.callers[c].Submitting? && w.callers[d].Submitting? ==>
          w.callers[c].req.Call() != w.callers[d].req.Call())
  }

  /** A step that hands nothing to the transport. */
  lemma LedgerStepKeeps(w: World, next: World)
    requires ProtocolInv(w) && Keeps(w.ledger, next.ledger) && next.submitted == w.submitted && next.callers == w.callers
    requires forall d :: d in next.delivered && d.final ==> d in w.delivered || Delivered(next.ledger, d.call)
    ensures ProtocolInv(next)
  {
    forall c | c in next.callers ensures CallerInv(next, next.callers[c]) { assert CallerInv(w, w.callers[c]); }
  }

  lemma MovingKeeps(w: World, c: nat, at: Caller)
    requires ProtocolInv(w) && c in w.callers && CallerInv(w, at) && !at.Submitting?
    ensures ProtocolInv(w.(callers := w.callers[c := at]))
  {
    var next := w.(callers := w.callers[c := at]);
    forall d | d in next.callers ensures CallerInv(next, next.callers[d]) {
      if d != c { assert CallerInv(w, w.callers[d]); }
    }
  }

  lemma ReserveStepKeeps(w: World, c: nat, req: Request, now: Time)
    requires ProtocolInv(w) && c in w.callers && w.callers[c] == Reserving(req)
    requires ReserveIn(w.ledger, req.GrantId(), req.key, req.reg.grant.budget, now).1.Ok?
    ensures var l := ReserveIn(w.ledger, req.GrantId(), req.key, req.reg.grant.budget, now).0;
      ProtocolInv(w.(ledger := l, callers := w.callers[c := Submitting(req)]))
  {
    var l := ReserveIn(w.ledger, req.GrantId(), req.key, req.reg.grant.budget, now).0;
    var next := w.(ledger := l, callers := w.callers[c := Submitting(req)]);
    OperationsKeep(w.ledger, g => "", DoReserve(req.GrantId(), req.key, req.reg.grant.budget, now));
    assert !HasEntry(w.ledger, req.GrantId(), req.key) && HasEntry(l, req.GrantId(), req.key);
    forall d | d in w.callers ensures CallerInv(next, w.callers[d])
      && (w.callers[d].Submitting? ==> w.callers[d].req.Call() != req.Call())
    {
      assert CallerInv(w, w.callers[d]);
    }
    assert CallerInv(next, Submitting(req));
  }

  lemma SubmitStepKeeps(w: World, c: nat, req: Request)
    requires ProtocolInv(w) && c in w.callers && w.callers[c] == Submitting(req)
    ensures ProtocolInv(w.(submitted := w.submitted + [req.Call()], callers := w.callers[c := Awaiting(req)]))
  {
    var next := w.(submitted := w.submitted + [req.Call()], callers := w.callers[c := Awaiting(req)]);
    assert CallerInv(w, w.callers[c]);
    forall d | d in next.callers ensures CallerInv(next, next.callers[d]) {
      if d != c { assert CallerInv(w, w.callers[d]); }
    }
    assert forall i :: 0 <= i < |w.submitted| ==> w.submitted[i] in w.submitted;
  }

  lemma EnsureRegisters(l: Ledger, digestOf: Grant -> Id, req: Request, now: Time)
    requires EnsureIn(l, digestOf, req.reg, now).1.Ok? && BoundTo(EnsureIn(l, digestOf, req.reg, now).1.value, req)
    ensures Registered(EnsureIn(l, digestOf, req.reg, now).0, req)
  {}

  lemma SettleDelivers(l: Ledger, req: Request, usage: GrantUsage, now: Time)
    requires SettleIn(l, req.GrantId(), req.key, usage, now).1.Ok?
    requires SettleIn(l, req.GrantId(), req.key, usage, now).1.value.decision.Authorized?
    ensures Delivered(SettleIn(l, req.GrantId(), req.key, usage, now).0, req.Call())
  {}

  /** The ledger operation behind a caller's step, if it has one. */
  function OpOf(c: Caller, now: Time): Op
    requires !c.Done?
  {
    match c
    case Checking(req) => Ensure(req.reg, now)
    case Registering(req) => Ensure(req.reg, now)
    case Reserving(req) => DoReserve(req.GrantId(), req.key, req.reg.grant.budget, now)
    case Settling(req, usage, _, _) => DoSettle(req.GrantId(), req.key, usage, now)
    case Marking(req, _) => DoMarkUnknown(req.GrantId(), req.key, now)
    case EnsuringUnknown(req) => DoEnsureUnknown(req.GrantId(), req.key, req.reg.grant.budget, now)
    case _ => Get(c.req.GrantId(), now)
  }

  lemma AdvanceIsAnOperation(w: World, c: Caller, digestOf: Grant -> Id, now: Time, reply: Reply)
    ensures var next := AdvanceCaller(w, c, digestOf, now, reply).0;
      && next.callers == w.callers
      && (next.ledger == w.ledger || (!c.Done? && next.ledger == Do(w.ledger, digestOf, OpOf(c, now))))
  {}

  lemma AdvanceKeeps(w: World, digestOf: Grant -> Id, c: nat, now: Time, reply: Reply)
    requires ProtocolInv(w) && c in w.callers
    ensures ProtocolInv(Next(w, digestOf, Advance(c, now, reply)))
  {
    var at := w.callers[c];
    var (next, to) := AdvanceCaller(w, at, digestOf, now, reply);
    assert CallerInv(w, at);
    if at.Submitting? {
      SubmitStepKeeps(w, c, at.req);
    } else if to.Submitting? {
      ReserveStepKeeps(w, c, at.req, now);
    } else {
      AdvanceIsAnOperation(w, at, digestOf, now, reply);
      if !at.Done? { OperationsKeep(w.ledger, digestOf, OpOf(at, now)); }
      if at.Settling? && next.delivered != w.delivered { SettleDelivers(w.ledger, at.req, at.usage, now); }
      LedgerStepKeeps(w, next);
      if to.Reserving? { EnsureRegisters(w.ledger, digestOf, at.req, now); }
      MovingKeeps(next, c, to);
    }
  }

  lemma StepKeeps(w: World, digestOf: Grant -> Id, e: Event)
    requires ProtocolInv(w)
    ensures ProtocolInv(Next(w, digestOf, e))
  {
    match e
    case Advance(c, now, reply) => if c in w.callers { AdvanceKeeps(w, digestOf, c, now, reply); }
    case Direct(op) =>
      OperationsKeep(w.ledger, digestOf, op);
      LedgerStepKeeps(w, w.(ledger := Do(w.ledger, digestOf, op)));
    case _ =>
      var next := Next(w, digestOf, e);
      forall d | d in next.callers ensures CallerInv(next, next.callers[d]) {
        if d in w.callers { assert CallerInv(w, w.callers[d]); }
      }
  }

  lemma {:induction false} EveryRunKeepsProtocol(w: World, digestOf: Grant -> Id, events: seq<Event>)
    requires ProtocolInv(w)
    ensures ProtocolInv(RunAll(w, digestOf, events))
  {
    if events != [] {
      EveryRunKeepsProtocol(w, digestOf, events[..|events| - 1]);
      StepKeeps(RunAll(w, digestOf, events[..|events| - 1]), digestOf, events[|events| - 1]);
    }
  }

  // ---------------------------------------------------------------- main results

  /** Over every interleaving of delegations, reconciliations, callbacks, revocations, crashes
      and restarts, from any ledger, each call of a grant reaches the transport at most once,
      and a final outcome is handed back only under an authorized receipt that is still in the
      ledger. */
  lemma SubmittedAtMostOnce(l: Ledger, digestOf: Grant -> Id, events: seq<Event>)
    ensures var w := RunAll(World(l, map[], [], []), digestOf, events);
      && NoDuplicates(w.submitted)
      && (forall call :: call in w.submitted ==> HasEntry(w.ledger, call.0, call.1))
      && (forall d :: d in w.delivered && d.final ==> Delivered(w.ledger, d.call))
  {
    EveryRunKeepsProtocol(World(l, map[], [], []), digestOf, events);
  }

  lemma MarkingAuthorizesNothing(l: Ledger, req: Request, now: Time)
    ensures Delivered(MarkUnknownIn(l, req.GrantId(), req.key, now).0, req.Call()) <==> Delivered(l, req.Call())
  {}

  /** Whatever a caller hands back is authorized at that step if and only if it is final or the
      call had been authorized by another caller before: an answer that is still pending is
      handed back with the result it carries, and with no receipt of its own. */
  lemma HandedBackUnderReceiptIff(w: World, digestOf: Grant -> Id, c: nat, now: Time, reply: Reply)
    requires c in w.callers && |Next(w, digestOf, Advance(c, now, reply)).delivered| > |w.delivered|
    ensures var next := Next(w, digestOf, Advance(c, now, reply)); var d := next.delivered[|w.delivered|];
      && next.delivered == w.delivered + [d] && d.call == w.callers[c].req.Call()
      && (Delivered(next.ledger, d.call) <==> d.final || Delivered(w.ledger, d.call))
  {
    var at := w.callers[c];
    if at.Settling? { SettleDelivers(w.ledger, at.req, at.usage, now); } else { MarkingAuthorizesNothing(w.ledger, at.req, now); }
  }

  /** A transport that answers `accepted` with a result gets it handed back although nothing was
      settled, for every call under way that nobody has settled. */
  lemma PendingResultIsHandedBack(w: World, digestOf: Grant -> Id, c: nat, now: Time, result: Id)
    requires c in w.callers && (w.callers[c].Awaiting? || w.callers[c].Reconciling?)
    requires var req := w.callers[c].req;
      HasEntry(w.ledger, req.GrantId(), req.key) && !EntryOf(w.ledger, req.GrantId(), req.key).state.Settled?
    ensures var req := w.callers[c].req;
      var next := RunAll(w, digestOf, [Advance(c, now, Pending(Some(result)))] + [Advance(c, now, Broken)]);
      next.delivered == w.delivered + [Delivery(req.Call(), false, Some(result))] && !Delivered(next.ledger, req.Call())
  {
    var first, second := Advance(c, now, Pending(Some(result))), Advance(c, now, Broken);
    assert ([first] + [second])[..1] == [first] && [first][..0] == [];
    assert RunAll(w, digestOf, [first]) == Next(RunAll(w, digestOf, [first][..0]), digestOf, first);
    var one := Next(w, digestOf, first);
    MarkingAuthorizesNothing(one.ledger, w.callers[c].req, now);
  }

  /** A call is handed on only after its reservation saw the grant registered, bound to the
      request's agent and task, active and unexpired. */
  lemma AdmissionNeedsAnActiveGrant(l: Ledger, digestOf: Grant -> Id, events: seq<Event>, c: nat, now: Time, reply: Reply)
    ensures var w := RunAll(World(l, map[], [], []), digestOf, events);
      c in w.callers && w.callers[c].Reserving? && AdvanceCaller(w, w.callers[c], digestOf, now, reply).1.Submitting? ==>
        var req := w.callers[c].req;
        Registered(w.ledger, req) && !Ended(View(w.ledger, req.GrantId()), now) && !HasEntry(w.ledger, req.GrantId(), req.key)
  {
    EveryRunKeepsProtocol(World(l, map[], [], []), digestOf, events);
    var w := RunAll(World(l, map[], [], []), digestOf, events);
    if c in w.callers { assert CallerInv(w, w.callers[c]); }
  }

  /** The ledger of a run is the result of a run of ledger operations. */
  lemma {:induction false} RunIsLedgerRun(w: World, digestOf: Grant -> Id, events: seq<Event>) returns (ops: seq<Op>)
    ensures RunAll(w, digestOf, events).ledger == Run(w.ledger, digestOf, ops)
  {
    ops := [];
    if events != [] {
      var before, e := RunAll(w, digestOf, events[..|events| - 1]), events[|events| - 1];
      ops := RunIsLedgerRun(w, digestOf, events[..|events| - 1]);
      if e.Direct? {
        assert (ops + [e.op])[..|ops|] == ops;
        ops := ops + [e.op];
      } else if e.Advance? && e.c in before.callers {
        AdvanceIsAnOperation(before, before.callers[e.c], digestOf, e.now, e.reply);
        if Next(before, digestOf, e).ledger != before.ledger {
          var op := OpOf(before.callers[e.c], e.now);
          assert (ops + [op])[..|ops|] == ops;
          ops := ops + [op];
        }
      }
    }
  }

  lemma SubsetIsSmaller(a: set<Id>, b: set<Id>)
    requires a <= b
    ensures |a| <= |b|
  {
    assert b == a + (b - a);
  }

  /** Across restarts the calls of one grant that reach the transport never exceed its call budget. */
  lemma SubmissionsStayWithinBudget(digestOf: Grant -> Id, events: seq<Event>, g: Id)
    ensures var w := RunAll(World(Ledger(map[], map[]), map[], [], []), digestOf, events);
      g in w.ledger.grants && w.ledger.grants[g].budget.calls.Some? ==>
        |set call | call in w.submitted && call.0 == g :: call.1| <= w.ledger.grants[g].budget.calls.value
  {
    var start := World(Ledger(map[], map[]), map[], [], []);
    var w := RunAll(start, digestOf, events);
    SubmittedAtMostOnce(Ledger(map[], map[]), digestOf, events);
    if g in w.ledger.grants && w.ledger.grants[g].budget.calls.Some? {
      var ops := RunIsLedgerRun(start, digestOf, events);
      EveryRunConserves(digestOf, ops, g);
      var calls := set call | call in w.submitted && call.0 == g :: call.1;
      assert calls <= w.ledger.grants[g].entries.Keys;
      SubsetIsSmaller(calls, w.ledger.grants[g].entries.Keys);
    }
  }
}
