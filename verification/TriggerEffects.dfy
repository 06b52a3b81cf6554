/** Which events a policy matches, when a claim is admitted, and what becomes of one decision while
    evaluations, replays and reconciliations interleave. */
module TriggerEffects {
  import opened Basics
  import opened Triggers
  import opened TriggerSpacing

  // ---------------------------------------------------------------- what a policy matches

  predicate AtLeastAsRisky(given: Risk, asked: Risk) {
    match asked
    case Low => true
    case Medium => !given.Low?
    case High => given.High?
  }

  /** The policy asks for this kind of event, and the event leaves it all of its participants. */
  predicate Asks(p: Policy, e: TriggerEvent) {
    && p.enabled && e.eventType in p.eventTypes
    && (match p.sources case None => true case Some(sources) => e.source in sources)
    && (match p.riskAtLeast case None => true case Some(asked) => e.risk.Some? && AtLeastAsRisky(e.risk.value, asked))
    && (match p.confidenceAtMost case None => true case Some(limit) => e.confidence.Some? && e.confidence.value <= limit)
    && (match p.diversityAtLeast case None => true case Some(least) => e.diversity.Some? && least <= e.diversity.value)
    && (match e.diversity case None => true case Some(asked) => asked <= |p.participants|)
    && (match e.allowed case None => true case Some(allowed) => forall agent :: agent in p.participants ==> agent in allowed)
  }

  lemma MatchesExactly(p: Policy, e: TriggerEvent)
    ensures Matches(p, e) <==> Asks(p, e)
  {
    if e.allowed.Some? && Matches(p, e) {
      forall agent | agent in p.participants ensures agent in e.allowed.value {
        var i :| 0 <= i < |p.participants| && p.participants[i] == agent;
      }
    }
  }

  // ---------------------------------------------------------------- admission

  /** An active decision of the policy for the same owner and tenant. */
  predicate InForce(s: Store, i: int, d: Decision) {
    && 0 <= i < |s.decisions| && s.decisions[i].policyId == d.policyId
    && s.decisions[i].owner == d.owner && s.decisions[i].tenant == d.tenant
    && (s.decisions[i].state.Started? || s.decisions[i].state.Triggered?)
  }

  /** The event, or the clock if the event claims to come later, lies a cooldown after every decision in force. */
  ghost predicate OutsideCooldown(s: Store, d: Decision, g: Guard, now: Time) {
    g.policy.cooldown == 0
    || forall i :: InForce(s, i, d) ==>
         s.decisions[i].startedAt + g.policy.cooldown <= g.occurredAt && s.decisions[i].startedAt + g.policy.cooldown <= now
  }

  predicate PolicyStands(s: Store, d: Decision, g: Guard) {
    && d.policyId in s.policies && s.policies[d.policyId] == g.policy
    && g.policy.enabled && g.policy.id == d.policyId && g.policy.owner == d.owner && g.policy.tenant == d.tenant
  }

  lemma CooldownMeans(s: Store, d: Decision, g: Guard, now: Time)
    ensures CooldownBlocks(Previous(s.decisions, d), g, now) <==> !OutsideCooldown(s, d, g, now)
  {
    PreviousIsLatest(s.decisions, d);
    PreviousIsOne(s.decisions, d);
    if CooldownBlocks(Previous(s.decisions, d), g, now) {
      var i :| 0 <= i < |s.decisions| && s.decisions[i] == Previous(s.decisions, d).value && Active(s.decisions[i]) && Rivals(s.decisions[i], d);
      assert InForce(s, i, d);
    }
  }

  lemma PreviousIgnoresStart(decisions: seq<Decision>, d: Decision, now: Time)
    ensures Previous(decisions, d.(startedAt := now)) == Previous(decisions, d)
  {
    if decisions != [] { PreviousIgnoresStart(decisions[..|decisions| - 1], d, now); }
  }

  /** A guarded claim for a policy and event without a decision is admitted exactly when the policy
      still stands and the event lies outside its cooldown; its decision starts at the clock. A policy
      and event with a decision answer with it, to its own owner only. */
  lemma AdmittedExactly(s: Store, d: Decision, g: Guard, now: Time)
    ensures var (next, answer) := ClaimIn(s, d, Some(g), now);
      var taken := exists i :: 0 <= i < |s.decisions| && s.decisions[i].policyId == d.policyId && s.decisions[i].eventId == d.eventId;
      && (!taken && PolicyStands(s, d, g) && OutsideCooldown(s, d, g, now) ==>
            && next == s.(decisions := s.decisions + [d.(startedAt := now)])
            && answer == Ok(Some(Claimed(d.(startedAt := now), true))))
      && (!taken && !(PolicyStands(s, d, g) && OutsideCooldown(s, d, g, now)) ==> next == s && answer == Ok(None))
      && (taken ==> next == s && AnswersWithFirst(s, d, answer))
  {
    CooldownMeans(s, d, g, now);
    PreviousIgnoresStart(s.decisions, d, now);
  }

  /** An active decision of the policy and scope. */
  predicate ActiveAt(decisions: seq<Decision>, i: nat, d: Decision) {
    i < |decisions| && decisions[i].policyId == d.policyId && SameScope(decisions[i], d) && Active(decisions[i])
  }

  /** A claim is judged by the active decision of its policy and scope that started last, the earliest
      stored of them, and by none exactly when there is none. */
  lemma {:induction false} JudgedByTheLatest(decisions: seq<Decision>, d: Decision)
    ensures Previous(decisions, d).None? ==> forall i: nat :: !ActiveAt(decisions, i, d)
    ensures Previous(decisions, d).Some? ==> exists i: nat ::
      && ActiveAt(decisions, i, d) && Previous(decisions, d) == Some(decisions[i])
      && forall j: nat :: ActiveAt(decisions, j, d) ==>
           decisions[j].startedAt <= decisions[i].startedAt && (j < i ==> decisions[j].startedAt < decisions[i].startedAt)
  {
    if decisions != [] {
      var n := |decisions| - 1;
      var front := decisions[..n];
      JudgedByTheLatest(front, d);
      assert forall j: nat :: j < n ==> front[j] == decisions[j] && (ActiveAt(front, j, d) <==> ActiveAt(decisions, j, d));
      if Previous(decisions, d).Some? {
        if Previous(front, d) == Previous(decisions, d) {
          var i: nat :| ActiveAt(front, i, d) && Previous(front, d) == Some(front[i])
            && forall j: nat :: ActiveAt(front, j, d) ==> front[j].startedAt <= front[i].startedAt && (j < i ==> front[j].startedAt < front[i].startedAt);
          assert ActiveAt(decisions, i, d);
        } else {
          assert ActiveAt(decisions, n, d);
        }
      }
    }
  }

  ghost predicate AnswersWithFirst(s: Store, d: Decision, answer: Result<Option<Claimed>, ClaimError>) {
    exists i :: 0 <= i < |s.decisions| && s.decisions[i].policyId == d.policyId && s.decisions[i].eventId == d.eventId
      && (forall j :: 0 <= j < i ==> s.decisions[j].policyId != d.policyId || s.decisions[j].eventId != d.eventId)
      && answer == if s.decisions[i].owner == d.owner && s.decisions[i].tenant == d.tenant
                   then Ok(Some(Claimed(s.decisions[i], false))) else Err(UnknownDecision)
  }

  /** Without a guard a policy and event without a decision are always admitted, as drafted. */
  lemma UnguardedIsAdmitted(s: Store, d: Decision, now: Time)
    requires forall i :: 0 <= i < |s.decisions| ==> s.decisions[i].policyId != d.policyId || s.decisions[i].eventId != d.eventId
    ensures ClaimIn(s, d, None, now) == (s.(decisions := s.decisions + [d]), Ok(Some(Claimed(d, true))))
  {}

  // ---------------------------------------------------------------- the life of one decision

  predicate Ended(d: Decision) {
    d.state.Failed? || d.state.BlockedDepth? || d.dispatch.DispatchCompleted? || d.dispatch.DispatchFailed?
  }

  /** What a reconciliation makes of a decision: while nothing was created it can be told that something
      or nothing was, and afterwards how the dispatch ended. */
  function AfterReconciliation(d: Decision, r: Reconciliation): Decision {
    if Ended(d) then d
    else match r
      case ResourceCreated(resource) =>
        if d.state.Started? && d.resource.None? then d.(state := Triggered, resource := Some(resource), dispatch := NotRequested) else d
      case CreationFailed => if d.state.Started? && d.resource.None? then d.(state := Failed, dispatch := DispatchFailed) else d
      case DispatchDone(Some(resource)) =>
        if d.state.Triggered? && d.resource.Some? then d.(dispatch := DispatchCompleted, resource := Some(resource)) else d
      case DispatchDone(None) => if d.state.Triggered? && d.resource.Some? then d.(dispatch := DispatchCompleted) else d
      case DispatchLost => if d.state.Triggered? && d.resource.Some? then d.(dispatch := DispatchFailed) else d
  }

  /** What the outcome of a call makes of its decision, whatever that was. */
  function AfterOutcome(d: Decision, call: Call, answered: bool): Decision {
    match call
    case Marking(p, _, made) =>
      d.(state := Triggered, resource := Some(made), dispatch := if p.dispatchRun then DispatchStarted else NotRequested)
    case Failing(_, _) => d.(state := Failed)
    case Dispatching(_, _) => d.(dispatch := if answered then DispatchCompleted else DispatchUnknown)
    case _ => d
  }

  /** A decision seen on its own. */
  function DecisionAfter(w: World, s: Step, d: Decision): Decision {
    match s
    case Advance(c, _, resource) =>
      if c in w.calls && !w.calls[c].Done? && w.calls[c].policy.id == d.policyId && w.calls[c].event.id == d.eventId
      then AfterOutcome(d, w.calls[c], resource.Some?) else d
    case Reconcile(policyId, eventId, r) => if policyId == d.policyId && eventId == d.eventId then AfterReconciliation(d, r) else d
    case _ => d
  }

  lemma SameIndex(decisions: seq<Decision>, k: nat, p: Id, e: Id)
    requires OneEach(decisions) && k < |decisions|
    ensures IndexOf(decisions, p, e) == k <==> decisions[k].policyId == p && decisions[k].eventId == e
  {}

  lemma AdvanceMovesDecision(w: World, maxDepth: nat, c: nat, now: Time, resource: Option<Id>, k: nat)
    requires OneEach(w.store.decisions) && k < |w.store.decisions| && c in w.calls
    ensures var next := AdvanceCall(w, w.calls[c], maxDepth, now, resource).0.store.decisions;
      k < |next| && next[k] == DecisionAfter(w, Advance(c, now, resource), w.store.decisions[k])
  {
    var call := w.calls[c];
    if call.Marking? || call.Failing? || call.Dispatching? { SameIndex(w.store.decisions, k, call.policy.id, call.event.id); }
  }

  /** In every step of every interleaving each decision does what it would do on its own. */
  lemma EveryDecisionGoesItsWay(w: World, maxDepth: nat, s: Step, k: nat)
    requires OneEach(w.store.decisions) && k < |w.store.decisions|
    ensures var next := Next(w, maxDepth, s).store.decisions;
      k < |next| && next[k] == DecisionAfter(w, s, w.store.decisions[k])
  {
    match s
    case Advance(c, now, resource) => if c in w.calls { AdvanceMovesDecision(w, maxDepth, c, now, resource, k); }
    case Reconcile(policyId, eventId, _) => SameIndex(w.store.decisions, k, policyId, eventId);
    case _ =>
  }

  // ---------------------------------------------------------------- one evaluation

  /** An event starts an evaluation exactly under an own policy that asks for it. */
  lemma DeliveredExactly(w: World, maxDepth: nat, c: nat, p: Policy, e: TriggerEvent)
    requires c !in w.calls
    ensures Next(w, maxDepth, Deliver(c, p, e))
         == if Asks(p, e) && p.owner == e.owner && p.tenant == e.tenant then w.(calls := w.calls[c := Claiming(p, e)]) else w
  {
    MatchesExactly(p, e);
  }

  /** An evaluation whose claim is admitted creates its resource once, unless its source is too deep,
      then says so, and then dispatches it when the policy wants it run. */
  lemma EvaluationGoesOn(w: World, maxDepth: nat, call: Call, now: Time, resource: Option<Id>)
    ensures var (next, after) := AdvanceCall(w, call, maxDepth, now, resource);
      match call
      case Claiming(p, e) =>
        var d := Decision(p.id, e.id, e.owner, e.tenant, if e.depth < maxDepth then Started else BlockedDepth, None, e.depth + 1, NotRequested, now);
        var admitted := next.store.decisions == w.store.decisions + [d];
        && (admitted || next.store == w.store)
        && after == (if admitted && e.depth < maxDepth then Creating(p, e) else Done) && next.created == w.created
      case Creating(p, e) =>
        if resource.Some? then next == w.(created := w.created + [(p.id, e.id)]) && after == Marking(p, e, resource.value)
        else next == w && after == Failing(p, e)
      case Marking(p, e, _) => next.created == w.created && after == if p.dispatchRun then Dispatching(p, e) else Done
      case _ => next.created == w.created && after == Done
  {
    if call.Claiming? {
      AdmittedExactly(w.store, DraftFor(call.policy, call.event, maxDepth), Guard(call.policy, call.event.occurredAt), now);
    }
  }

  // ---------------------------------------------------------------- no decision comes from nowhere

  /** The m-th step delivered this event under this policy, which asked for it. */
  ghost predicate AskedAt(steps: seq<Step>, m: nat, p: Policy, e: TriggerEvent) {
    && m < |steps| && steps[m].Deliver? && steps[m].policy == p && steps[m].event == e
    && Asks(p, e) && p.owner == e.owner && p.tenant == e.tenant
  }

  ghost predicate CallAsked(steps: seq<Step>, call: Call) {
    call.Done? || exists m: nat :: AskedAt(steps, m, call.policy, call.event)
  }

  ghost predicate DecisionAsked(steps: seq<Step>, d: Decision) {
    exists m: nat, p, e :: AskedAt(steps, m, p, e) && Concerns(d, p, e)
  }

  predicate Concerns(d: Decision, p: Policy, e: TriggerEvent) {
    d.policyId == p.id && d.eventId == e.id && d.owner == e.owner && d.tenant == e.tenant && d.depth == e.depth + 1
  }

  ghost predicate AllAsked(steps: seq<Step>, w: World) {
    && (forall c :: c in w.calls ==> CallAsked(steps, w.calls[c]))
    && (forall i :: 0 <= i < |w.store.decisions| ==> DecisionAsked(steps, w.store.decisions[i]))
  }

  /** The decision, whatever became of it, concerns the same policy and event. */
  predicate SameConcern(d: Decision, next: Decision) {
    next.policyId == d.policyId && next.eventId == d.eventId && next.owner == d.owner && next.tenant == d.tenant && next.depth == d.depth
  }

  lemma AskedStays(steps: seq<Step>, more: seq<Step>, d: Decision, next: Decision)
    requires DecisionAsked(steps, d) && SameConcern(d, next)
    ensures DecisionAsked(steps + more, next)
  {
    var m: nat, p, e :| AskedAt(steps, m, p, e) && Concerns(d, p, e);
    assert AskedAt(steps + more, m, p, e) && Concerns(next, p, e);
  }

  lemma AskedGrows(steps: seq<Step>, s: Step, w: World)
    requires AllAsked(steps, w)
    ensures AllAsked(steps + [s], w)
  {
    forall c | c in w.calls ensures CallAsked(steps + [s], w.calls[c]) {
      if !w.calls[c].Done? {
        var m: nat :| AskedAt(steps, m, w.calls[c].policy, w.calls[c].event);
        assert AskedAt(steps + [s], m, w.calls[c].policy, w.calls[c].event);
      }
    }
    forall i | 0 <= i < |w.store.decisions| ensures DecisionAsked(steps + [s], w.store.decisions[i]) {
      AskedStays(steps, [s], w.store.decisions[i], w.store.decisions[i]);
    }
  }

  lemma KeptAsked(steps: seq<Step>, w: World, next: World)
    requires AllAsked(steps, w) && |next.store.decisions| == |w.store.decisions|
    requires forall i :: 0 <= i < |w.store.decisions| ==> SameConcern(w.store.decisions[i], next.store.decisions[i])
    requires forall c :: c in next.calls ==> CallAsked(steps, next.calls[c])
    ensures AllAsked(steps, next)
  {
    forall i | 0 <= i < |w.store.decisions| ensures DecisionAsked(steps, next.store.decisions[i]) {
      AskedStays(steps, [], w.store.decisions[i], next.store.decisions[i]);
      assert steps + [] == steps;
    }
  }

  lemma StepKeepsConcerns(w: World, maxDepth: nat, s: Step, i: nat)
    requires OneEach(w.store.decisions) && i < |w.store.decisions|
    ensures i < |Next(w, maxDepth, s).store.decisions| && SameConcern(w.store.decisions[i], Next(w, maxDepth, s).store.decisions[i])
  {
    EveryDecisionGoesItsWay(w, maxDepth, s, i);
  }

  lemma AdvanceAsked(steps: seq<Step>, w: World, maxDepth: nat, c: nat, now: Time, resource: Option<Id>)
    requires CreationInv(w, maxDepth) && AllAsked(steps, w) && c in w.calls
    ensures AllAsked(steps, Next(w, maxDepth, Advance(c, now, resource)))
  {
    var call, next := w.calls[c], Next(w, maxDepth, Advance(c, now, resource));
    EvaluationGoesOn(w, maxDepth, call, now, resource);
    forall d | d in next.calls ensures CallAsked(steps, next.calls[d]) {
      if d != c { assert CallAsked(steps, w.calls[d]); } else { assert CallAsked(steps, call); }
    }
    forall i: nat | i < |w.store.decisions| ensures SameConcern(w.store.decisions[i], next.store.decisions[i]) && |next.store.decisions| >= |w.store.decisions| {
      StepKeepsConcerns(w, maxDepth, Advance(c, now, resource), i);
    }
    if |next.store.decisions| == |w.store.decisions| {
      KeptAsked(steps, w, next);
    } else {
      assert CallAsked(steps, call);
      var m: nat :| AskedAt(steps, m, call.policy, call.event);
      forall i | 0 <= i < |next.store.decisions| ensures DecisionAsked(steps, next.store.decisions[i]) {
        if i < |w.store.decisions| {
          assert next.store.decisions[i] == w.store.decisions[i];
        } else {
          assert Concerns(next.store.decisions[i], call.policy, call.event);
        }
      }
    }
  }

  lemma StepAsked(steps: seq<Step>, w: World, maxDepth: nat, s: Step)
    requires CreationInv(w, maxDepth) && AllAsked(steps, w)
    ensures AllAsked(steps + [s], Next(w, maxDepth, s))
  {
    AskedGrows(steps, s, w);
    var next := Next(w, maxDepth, s);
    match s
    case Advance(c, now, resource) => if c in w.calls { AdvanceAsked(steps + [s], w, maxDepth, c, now, resource); }
    case Deliver(c, p, e) =>
      MatchesExactly(p, e);
      if next != w { assert AskedAt(steps + [s], |steps|, p, e); }
    case _ =>
      forall i: nat | i < |w.store.decisions| ensures SameConcern(w.store.decisions[i], next.store.decisions[i]) && |next.store.decisions| >= |w.store.decisions| {
        StepKeepsConcerns(w, maxDepth, s, i);
      }
      KeptAsked(steps + [s], w, next);
  }

  lemma {:induction false} EveryRunAsked(maxDepth: nat, steps: seq<Step>)
    ensures AllAsked(steps, Run(NOTHING, maxDepth, steps))
  {
    if steps != [] {
      var front := steps[..|steps| - 1];
      EveryRunAsked(maxDepth, front);
      EveryRunKeepsCreationInv(maxDepth, front);
      StepAsked(front, Run(NOTHING, maxDepth, front), maxDepth, steps[|steps| - 1]);
      assert front + [steps[|steps| - 1]] == steps;
    }
  }

  /** Over every interleaving each decision was asked for: some step delivered its event under its own
      policy, which matched it, for its owner, one level below the source. */
  lemma EveryDecisionWasAsked(maxDepth: nat, steps: seq<Step>, i: nat) returns (m: nat)
    requires i < |Run(NOTHING, maxDepth, steps).store.decisions|
    ensures m < |steps| && steps[m].Deliver? && Asks(steps[m].policy, steps[m].event)
    ensures var d, p, e := Run(NOTHING, maxDepth, steps).store.decisions[i], steps[m].policy, steps[m].event;
      && d.policyId == p.id && d.eventId == e.id && d.owner == e.owner == p.owner && d.tenant == e.tenant == p.tenant
      && d.depth == e.depth + 1
  {
    EveryRunAsked(maxDepth, steps);
    var d := Run(NOTHING, maxDepth, steps).store.decisions[i];
    assert DecisionAsked(steps, d);
    var k: nat, p, e :| AskedAt(steps, k, p, e) && Concerns(d, p, e);
    m := k;
  }
}
