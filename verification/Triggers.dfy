/** Trigger claims of src/collaboration-triggers.ts: one decision per policy and event, a
    cooldown judged at admission, and a derivation depth no creation passes. Every method is one
    `serial` section of the file store. Decision ids are collision-free digests of the policy and
    event ids, so the pair stands for them. */
module Triggers {
  import opened Basics

  datatype Risk = Low | Medium | High

  datatype Policy = Policy(
    id: Id, owner: Id, tenant: Id, enabled: bool, eventTypes: seq<Id>, sources: Option<seq<Id>>, riskAtLeast: Option<Risk>,
    confidenceAtMost: Option<real>, diversityAtLeast: Option<nat>, participants: seq<Id>, dispatchRun: bool, cooldown: nat)

  /** `depth` is the depth of the source; HTTP callers and channel messages are roots of depth 0. */
  datatype TriggerEvent = TriggerEvent(
    id: Id, eventType: Id, source: Id, owner: Id, tenant: Id, risk: Option<Risk>, confidence: Option<real>,
    diversity: Option<nat>, allowed: Option<seq<Id>>, depth: nat, occurredAt: Time)

  datatype DecisionState = Started | Triggered | Failed | BlockedDepth

  datatype DispatchState = NotRequested | DispatchStarted | DispatchCompleted | DispatchUnknown | DispatchFailed

  datatype Decision = Decision(
    policyId: Id, eventId: Id, owner: Id, tenant: Id, state: DecisionState, resource: Option<Id>, depth: nat,
    dispatch: DispatchState, startedAt: Time)

  datatype Store = Store(policies: map<Id, Policy>, decisions: seq<Decision>)

  datatype Guard = Guard(policy: Policy, occurredAt: Time)

  datatype ClaimError = UnknownDecision

  datatype Claimed = Claimed(decision: Decision, claimed: bool)

  predicate Active(d: Decision) { d.state.Started? || d.state.Triggered? }

  predicate SameScope(a: Decision, b: Decision) { a.owner == b.owner && a.tenant == b.tenant }

  predicate Same(d: Decision, policyId: Id, eventId: Id) { d.policyId == policyId && d.eventId == eventId }

  /** Index of the decision of this policy and event, or the length. */
  function IndexOf(decisions: seq<Decision>, policyId: Id, eventId: Id): (k: nat)
    ensures k <= |decisions|
    ensures k < |decisions| ==> Same(decisions[k], policyId, eventId)
    ensures forall j :: 0 <= j < k ==> !Same(decisions[j], policyId, eventId)
  {
    if decisions == [] then 0
    else
      var k := IndexOf(decisions[..|decisions| - 1], policyId, eventId);
      if k < |decisions| - 1 || Same(decisions[|decisions| - 1], policyId, eventId) then k else |decisions|
  }

  // ---------------------------------------------------------------- claiming

  predicate PolicyStillMatches(policies: map<Id, Policy>, g: Guard, d: Decision) {
    d.policyId in policies
    && (var current := policies[d.policyId];
        current.enabled && current.owner == d.owner && current.tenant == d.tenant && current.id == d.policyId && current == g.policy)
  }

  /** The active decision of the same policy and scope that started last. */
  function Previous(decisions: seq<Decision>, d: Decision): Option<Decision> {
    if decisions == [] then None
    else
      var best, last := Previous(decisions[..|decisions| - 1], d), decisions[|decisions| - 1];
      if last.policyId == d.policyId && SameScope(last, d) && Active(last) && (best.None? || last.startedAt > best.value.startedAt)
      then Some(last) else best
  }

  /** Event time keeps replayed events from becoming new work; future event times are clamped. */
  predicate CooldownBlocks(previous: Option<Decision>, g: Guard, now: Time) {
    previous.Some? && g.policy.cooldown > 0 && Min(g.occurredAt, now) - previous.value.startedAt < g.policy.cooldown
  }

  /** None is a claim refused by the guard. */
  function ClaimIn(s: Store, d: Decision, guard: Option<Guard>, now: Time): (Store, Result<Option<Claimed>, ClaimError>) {
    var k := IndexOf(s.decisions, d.policyId, d.eventId);
    if k < |s.decisions| then
      if !SameScope(s.decisions[k], d) then (s, Err(UnknownDecision)) else (s, Ok(Some(Claimed(s.decisions[k], false))))
    else if guard.None? then (s.(decisions := s.decisions + [d]), Ok(Some(Claimed(d, true))))
    else if !PolicyStillMatches(s.policies, guard.value, d) then (s, Ok(None))
    else
      var admitted := d.(startedAt := now);
      if CooldownBlocks(Previous(s.decisions, admitted), guard.value, now) then (s, Ok(None))
      else (s.(decisions := s.decisions + [admitted]), Ok(Some(Claimed(admitted, true))))
  }

  // ---------------------------------------------------------------- reconciling

  datatype Reconciliation = ResourceCreated(resource: Id) | CreationFailed | DispatchDone(newResource: Option<Id>) | DispatchLost

  datatype ReconcileError = NoSuchDecision | AlreadyTerminal | NotWaitingForResource | NotDispatched

  predicate Terminal(d: Decision) {
    d.state.Failed? || d.state.BlockedDepth? || d.dispatch.DispatchCompleted? || d.dispatch.DispatchFailed?
  }

  function Reconciled(d: Decision, r: Reconciliation): Result<Decision, ReconcileError> {
    if Terminal(d) then Err(AlreadyTerminal)
    else match r
      case ResourceCreated(resource) =>
        if !d.state.Started? || d.resource.Some? then Err(NotWaitingForResource)
        else Ok(d.(state := Triggered, resource := Some(resource), dispatch := NotRequested))
      case CreationFailed =>
        if !d.state.Started? || d.resource.Some? then Err(NotWaitingForResource) else Ok(d.(state := Failed, dispatch := DispatchFailed))
      case DispatchDone(resource) =>
        if !d.state.Triggered? || d.resource.None? then Err(NotDispatched)
        else Ok(d.(dispatch := DispatchCompleted, resource := if resource.Some? then resource else d.resource))
      case DispatchLost =>
        if !d.state.Triggered? || d.resource.None? then Err(NotDispatched) else Ok(d.(dispatch := DispatchFailed))
  }

  function ReconcileIn(s: Store, policyId: Id, eventId: Id, r: Reconciliation): (Store, Result<Decision, ReconcileError>) {
    var k := IndexOf(s.decisions, policyId, eventId);
    if k == |s.decisions| then (s, Err(NoSuchDecision))
    else match Reconciled(s.decisions[k], r)
      case Err(e) => (s, Err(e))
      case Ok(d) => (s.(decisions := s.decisions[k := d]), Ok(d))
  }

  /** `updateDecision` as the evaluating call uses it: it does not look at the state it replaces. */
  function Rewritten(s: Store, policyId: Id, eventId: Id, change: Decision -> Decision): Store {
    var k := IndexOf(s.decisions, policyId, eventId);
    if k == |s.decisions| then s else s.(decisions := s.decisions[k := change(s.decisions[k])])
  }

  class FileCollaborationTriggerStore {
    var policies: map<Id, Policy>
    var decisions: seq<Decision>

    function State(): Store
      reads this
    {
      Store(policies, decisions)
    }

    constructor ()
      ensures State() == Store(map[], [])
    {
      policies, decisions := map[], [];
    }

    /** The latest active decision of the same policy and scope. */
    method LatestActive(d: Decision) returns (previous: Option<Decision>)
      ensures previous == Previous(decisions, d)
    {
      previous := None;
      for i := 0 to |decisions|
        invariant previous == Previous(decisions[..i], d)
      {
        assert decisions[..i + 1][..i] == decisions[..i];
        var item := decisions[i];
        if item.policyId == d.policyId && SameScope(item, d) && Active(item) {
          if previous.None? || item.startedAt > previous.value.startedAt { previous := Some(item); }
        }
      }
      assert decisions[..|decisions|] == decisions;
    }

    method Claim(d: Decision, guard: Option<Guard>, now: Time) returns (answer: Result<Option<Claimed>, ClaimError>)
      modifies this`decisions
      ensures (State(), answer) == ClaimIn(old(State()), d, guard, now)
    {
      var k := IndexOf(decisions, d.policyId, d.eventId);
      if k < |decisions| {
        if !SameScope(decisions[k], d) { return Err(UnknownDecision); }
        return Ok(Some(Claimed(decisions[k], false)));
      }
      var parsed := d;
      if guard.Some? {
        if !PolicyStillMatches(policies, guard.value, d) { return Ok(None); }
        parsed := parsed.(startedAt := now);
        var previous := LatestActive(parsed);
        if CooldownBlocks(previous, guard.value, now) { return Ok(None); }
      }
      decisions := decisions + [parsed];
      return Ok(Some(Claimed(parsed, true)));
    }

    method ReconcileDecision(policyId: Id, eventId: Id, r: Reconciliation) returns (answer: Result<Decision, ReconcileError>)
      modifies this`decisions
      ensures (State(), answer) == ReconcileIn(old(State()), policyId, eventId, r)
    {
      var k := IndexOf(decisions, policyId, eventId);
      if k == |decisions| { return Err(NoSuchDecision); }
      var d := decisions[k];
      if Terminal(d) { return Err(AlreadyTerminal); }
      match r {
        case ResourceCreated(resource) =>
          if !d.state.Started? || d.resource.Some? { return Err(NotWaitingForResource); }
          d := d.(state := Triggered, resource := Some(resource), dispatch := NotRequested);
        case CreationFailed =>
          if !d.state.Started? || d.resource.Some? { return Err(NotWaitingForResource); }
          d := d.(state := Failed, dispatch := DispatchFailed);
        case DispatchDone(resource) =>
          if !d.state.Triggered? || d.resource.None? { return Err(NotDispatched); }
          d := d.(dispatch := DispatchCompleted, resource := if resource.Some? then resource else d.resource);
        case DispatchLost =>
          if !d.state.Triggered? || d.resource.None? { return Err(NotDispatched); }
          d := d.(dispatch := DispatchFailed);
      }
      decisions := decisions[k := d];
      return Ok(d);
    }
  }

  // ---------------------------------------------------------------- evaluating

  function RiskRank(r: Risk): nat { match r case High => 3 case Medium => 2 case Low => 1 }

  /** Events only narrow a policy. */
  predicate Matches(p: Policy, e: TriggerEvent) {
    && p.enabled && e.eventType in p.eventTypes && (p.sources.Some? ==> e.source in p.sources.value)
    && (p.riskAtLeast.Some? ==> e.risk.Some? && RiskRank(e.risk.value) >= RiskRank(p.riskAtLeast.value))
    && (p.confidenceAtMost.Some? ==> e.confidence.Some? && e.confidence.value <= p.confidenceAtMost.value)
    && (p.diversityAtLeast.Some? ==> e.diversity.Some? && e.diversity.value >= p.diversityAtLeast.value)
    && (e.diversity.Some? ==> |p.participants| >= e.diversity.value)
    && (e.allowed.Some? ==> forall i :: 0 <= i < |p.participants| ==> p.participants[i] in e.allowed.value)
  }

  /** What evaluating one policy asks to be claimed; the resource is one level below its source. */
  function DraftFor(p: Policy, e: TriggerEvent, maxDepth: nat): Decision {
    Decision(p.id, e.id, e.owner, e.tenant, if e.depth + 1 > maxDepth then BlockedDepth else Started, None, e.depth + 1, NotRequested, 0)
  }

  /** One policy of one evaluated event, between two sections. */
  datatype Call =
    | Claiming(policy: Policy, event: TriggerEvent)
    | Creating(policy: Policy, event: TriggerEvent)
    | Marking(policy: Policy, event: TriggerEvent, resource: Id)
    | Failing(policy: Policy, event: TriggerEvent)
    | Dispatching(policy: Policy, event: TriggerEvent)
    | Done

  /** `created` logs the creations, `inForce` the cooldown each decision was admitted under. */
  datatype World = World(store: Store, calls: map<nat, Call>, created: seq<(Id, Id)>, inForce: seq<nat>)

  datatype Step =
    | Deliver(c: nat, policy: Policy, event: TriggerEvent)
    | Advance(c: nat, now: Time, resource: Option<Id>)
    | Crash(c: nat)
    | SetPolicies(policies: map<Id, Policy>)
    | Reconcile(policyId: Id, eventId: Id, r: Reconciliation)

  function AdvanceCall(w: World, call: Call, maxDepth: nat, now: Time, resource: Option<Id>): (World, Call) {
    match call
    case Claiming(p, e) =>
      var (store, answer) := ClaimIn(w.store, DraftFor(p, e, maxDepth), Some(Guard(p, e.occurredAt)), now);
      var inForce := if |store.decisions| > |w.store.decisions| then w.inForce + [p.cooldown] else w.inForce;
      (w.(store := store, inForce := inForce),
       if answer.Ok? && answer.value.Some? && answer.value.value.claimed && !answer.value.value.decision.state.BlockedDepth?
       then Creating(p, e) else Done)
    case Creating(p, e) =>
      if resource.Some? then (w.(created := w.created + [(p.id, e.id)]), Marking(p, e, resource.value)) else (w, Failing(p, e))
    case Marking(p, e, made) =>
      var dispatch := if p.dispatchRun then DispatchStarted else NotRequested;
      (w.(store := Rewritten(w.store, p.id, e.id, (d: Decision) => d.(state := Triggered, resource := Some(made), dispatch := dispatch))),
       if p.dispatchRun then Dispatching(p, e) else Done)
    case Failing(p, e) => (w.(store := Rewritten(w.store, p.id, e.id, (d: Decision) => d.(state := Failed))), Done)
    case Dispatching(p, e) =>
      var dispatch := if resource.Some? then DispatchCompleted else DispatchUnknown;
      (w.(store := Rewritten(w.store, p.id, e.id, (d: Decision) => d.(dispatch := dispatch))), Done)
    case Done => (w, Done)
  }

  function Next(w: World, maxDepth: nat, s: Step): World {
    match s
    case Deliver(c, p, e) =>
      if c in w.calls || !Matches(p, e) || p.owner != e.owner || p.tenant != e.tenant then w
      else w.(calls := w.calls[c := Claiming(p, e)])
    case Advance(c, now, resource) =>
      if c !in w.calls then w
      else
        var (next, call) := AdvanceCall(w, w.calls[c], maxDepth, now, resource);
        next.(calls := w.calls[c := call])
    case Crash(c) => w.(calls := w.calls - {c})
    case SetPolicies(policies) => w.(store := w.store.(policies := policies))
    case Reconcile(policyId, eventId, r) => w.(store := ReconcileIn(w.store, policyId, eventId, r).0)
  }

  function Run(w: World, maxDepth: nat, steps: seq<Step>): World {
    if steps == [] then w else Next(Run(w, maxDepth, steps[..|steps| - 1]), maxDepth, steps[|steps| - 1])
  }

  const NOTHING := World(Store(map[], []), map[], [], [])

  // ---------------------------------------------------------------- one decision, one creation

  predicate Decided(decisions: seq<Decision>, policyId: Id, eventId: Id) {
    exists i :: 0 <= i < |decisions| && Same(decisions[i], policyId, eventId)
  }

  ghost predicate OneEach(decisions: seq<Decision>) {
    forall i, j :: 0 <= i < j < |decisions| ==> !Same(decisions[j], decisions[i].policyId, decisions[i].eventId)
  }

  /** The decisions of `next` are those of `s`, rewritten in place, and possibly one new one. */
  predicate KeepsKeys(s: seq<Decision>, next: seq<Decision>) {
    && |s| <= |next|
    && forall i :: 0 <= i < |s| ==> Same(next[i], s[i].policyId, s[i].eventId) && SameScope(next[i], s[i])
                                    && next[i].startedAt == s[i].startedAt && next[i].depth == s[i].depth
  }

  ghost predicate CallInv(w: World, maxDepth: nat, call: Call) {
    call.Creating? ==>
      Decided(w.store.decisions, call.policy.id, call.event.id) && (call.policy.id, call.event.id) !in w.created
      && call.event.depth + 1 <= maxDepth
  }

  ghost predicate CreationInv(w: World, maxDepth: nat) {
    && OneEach(w.store.decisions)
    && NoDuplicates(w.created)
    && (forall p, e :: (p, e) in w.created ==> Decided(w.store.decisions, p, e))
    && (forall i :: 0 <= i < |w.store.decisions| && w.store.decisions[i].depth > maxDepth ==>
          (w.store.decisions[i].policyId, w.store.decisions[i].eventId) !in w.created)
    && (forall c :: c in w.calls ==> CallInv(w, maxDepth, w.calls[c]))
    && (forall c :: c in w.calls && w.calls[c].Creating? ==> WithinDepth(w.store.decisions, maxDepth, w.calls[c]))
    && (forall c, d :: c in w.calls && d in w.calls && c != d && w.calls[c].Creating? && w.calls[d].Creating? ==>
          (w.calls[c].policy.id, w.calls[c].event.id) != (w.calls[d].policy.id, w.calls[d].event.id))
  }

  predicate WithinDepth(decisions: seq<Decision>, maxDepth: nat, call: Call)
    requires call.Creating?
  {
    forall i :: 0 <= i < |decisions| && Same(decisions[i], call.policy.id, call.event.id) ==> decisions[i].depth <= maxDepth
  }

  /** A step that claims nothing new and creates nothing. */
  lemma QuietStepKeeps(w: World, maxDepth: nat, next: World)
    requires CreationInv(w, maxDepth) && next.created == w.created
    requires |next.store.decisions| == |w.store.decisions| && KeepsKeys(w.store.decisions, next.store.decisions)
    requires forall c :: c in next.calls && next.calls[c].Creating? ==> c in w.calls && w.calls[c] == next.calls[c]
    ensures CreationInv(next, maxDepth)
  {
    var before, after := w.store.decisions, next.store.decisions;
    forall p, e ensures Decided(before, p, e) <==> Decided(after, p, e) {
      if i :| 0 <= i < |before| && Same(before[i], p, e) { assert Same(after[i], p, e); }
      if i :| 0 <= i < |after| && Same(after[i], p, e) { assert Same(before[i], p, e); }
    }
    forall c | c in next.calls ensures CallInv(next, maxDepth, next.calls[c])
      && (next.calls[c].Creating? ==> WithinDepth(after, maxDepth, next.calls[c]))
    {
      if next.calls[c].Creating? { assert CallInv(w, maxDepth, w.calls[c]) && WithinDepth(before, maxDepth, w.calls[c]); }
    }
  }

  lemma ClaimStepKeeps(w: World, maxDepth: nat, c: nat, p: Policy, e: TriggerEvent, now: Time)
    requires CreationInv(w, maxDepth) && c in w.calls && w.calls[c] == Claiming(p, e)
    ensures CreationInv(Next(w, maxDepth, Advance(c, now, None)), maxDepth)
  {
    var next := Next(w, maxDepth, Advance(c, now, None));
    var before, after := w.store.decisions, next.store.decisions;
    if |after| == |before| {
      assert after == before;
      QuietStepKeeps(w, maxDepth, next);
    } else {
      assert after == before + [after[|before|]] && !Decided(before, p.id, e.id) && Same(after[|before|], p.id, e.id);
      forall q, f | Decided(before, q, f) ensures Decided(after, q, f) {
        var i :| 0 <= i < |before| && Same(before[i], q, f);
        assert Same(after[i], q, f);
      }
      forall d | d in next.calls ensures CallInv(next, maxDepth, next.calls[d])
        && (next.calls[d].Creating? ==> WithinDepth(after, maxDepth, next.calls[d]))
        && (d != c && next.calls[d].Creating? ==> (next.calls[d].policy.id, next.calls[d].event.id) != (p.id, e.id))
      {
        if d != c && next.calls[d].Creating? { assert CallInv(w, maxDepth, w.calls[d]) && WithinDepth(before, maxDepth, w.calls[d]); }
      }
    }
  }

  lemma CreateStepKeeps(w: World, maxDepth: nat, c: nat, p: Policy, e: TriggerEvent, now: Time, resource: Id)
    requires CreationInv(w, maxDepth) && c in w.calls && w.calls[c] == Creating(p, e)
    ensures CreationInv(Next(w, maxDepth, Advance(c, now, Some(resource))), maxDepth)
  {
    var next := Next(w, maxDepth, Advance(c, now, Some(resource)));
    assert CallInv(w, maxDepth, w.calls[c]) && WithinDepth(w.store.decisions, maxDepth, w.calls[c]);
    assert forall i :: 0 <= i < |w.created| ==> w.created[i] in w.created;
    forall d | d in next.calls ensures CallInv(next, maxDepth, next.calls[d]) {
      if d != c { assert CallInv(w, maxDepth, w.calls[d]); }
    }
  }

  lemma StepKeepsCreationInv(w: World, maxDepth: nat, s: Step)
    requires CreationInv(w, maxDepth)
    ensures CreationInv(Next(w, maxDepth, s), maxDepth)
  {
    match s
    case Advance(c, now, resource) =>
      if c in w.calls {
        if w.calls[c].Claiming? { ClaimStepKeeps(w, maxDepth, c, w.calls[c].policy, w.calls[c].event, now); }
        else if w.calls[c].Creating? && resource.Some? { CreateStepKeeps(w, maxDepth, c, w.calls[c].policy, w.calls[c].event, now, resource.value); }
        else { QuietStepKeeps(w, maxDepth, Next(w, maxDepth, s)); }
      }
    case _ => OtherStepsKeepCreationInv(w, maxDepth, s);
  }

  lemma OtherStepsKeepCreationInv(w: World, maxDepth: nat, s: Step)
    requires CreationInv(w, maxDepth) && !s.Advance?
    ensures CreationInv(Next(w, maxDepth, s), maxDepth)
  {
    QuietStepKeeps(w, maxDepth, Next(w, maxDepth, s));
  }

  lemma {:induction false} EveryRunKeepsCreationInv(maxDepth: nat, steps: seq<Step>)
    ensures CreationInv(Run(NOTHING, maxDepth, steps), maxDepth)
  {
    if steps != [] {
      EveryRunKeepsCreationInv(maxDepth, steps[..|steps| - 1]);
      StepKeepsCreationInv(Run(NOTHING, maxDepth, steps[..|steps| - 1]), maxDepth, steps[|steps| - 1]);
    }
  }

  /** Over every interleaving of evaluations, crashes, replays and reconciliations a policy has
      one decision per event, at most one resource is created for it, and none past the depth limit. */
  lemma CreatedAtMostOnce(maxDepth: nat, steps: seq<Step>, p: Id, e: Id)
    ensures var w := Run(NOTHING, maxDepth, steps);
      && OneEach(w.store.decisions) && NoDuplicates(w.created)
      && ((p, e) in w.created ==> exists i :: 0 <= i < |w.store.decisions| && Same(w.store.decisions[i], p, e)
                                               && w.store.decisions[i].depth <= maxDepth)
  {
    EveryRunKeepsCreationInv(maxDepth, steps);
    var w := Run(NOTHING, maxDepth, steps);
    if (p, e) in w.created {
      assert Decided(w.store.decisions, p, e);
      var i :| 0 <= i < |w.store.decisions| && Same(w.store.decisions[i], p, e);
      assert w.store.decisions[i].depth <= maxDepth;
    }
  }

  // ---------------------------------------------------------------- the cooldown

  lemma {:induction false} PreviousIsLatest(decisions: seq<Decision>, d: Decision)
    ensures forall i :: 0 <= i < |decisions| && decisions[i].policyId == d.policyId && SameScope(decisions[i], d) && Active(decisions[i]) ==>
      Previous(decisions, d).Some? && decisions[i].startedAt <= Previous(decisions, d).value.startedAt
  {
    if decisions != [] {
      var n := |decisions| - 1;
      PreviousIsLatest(decisions[..n], d);
      assert forall i :: 0 <= i < n ==> decisions[..n][i] == decisions[i];
    }
  }

  /** An admitted decision starts at least the cooldown in force after every active one of its policy. */
  lemma AdmissionRespectsCooldown(s: Store, d: Decision, g: Guard, now: Time, i: nat)
    requires |ClaimIn(s, d, Some(g), now).0.decisions| > |s.decisions| && i < |s.decisions|
    requires s.decisions[i].policyId == d.policyId && SameScope(s.decisions[i], d) && Active(s.decisions[i]) && g.policy.cooldown > 0
    ensures var admitted := ClaimIn(s, d, Some(g), now).0.decisions[|s.decisions|];
      admitted.startedAt >= s.decisions[i].startedAt + g.policy.cooldown && g.occurredAt >= s.decisions[i].startedAt + g.policy.cooldown
  {
    PreviousIsLatest(s.decisions, d.(startedAt := now));
  }
}
