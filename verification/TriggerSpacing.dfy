/** How far apart the active decisions of a trigger policy of src/collaboration-triggers.ts stay.
    The evaluating call writes its outcome without looking at the state it replaces, so a decision
    reconciled as failed can become active again while its call is alive. */
module TriggerSpacing {
  import opened Basics
  import opened Triggers

  predicate About(call: Call, d: Decision) { !call.Done? && call.policy.id == d.policyId && call.event.id == d.eventId }

  /** A call that claimed its decision and has not finished with it. */
  predicate Live(call: Call) { !call.Done? && !call.Claiming? }

  /** Some call may still write that the decision is triggered. */
  predicate Owed(w: World, i: nat)
    requires i < |w.store.decisions|
  {
    exists c :: c in w.calls && (w.calls[c].Creating? || w.calls[c].Marking?) && About(w.calls[c], w.store.decisions[i])
  }

  /** Nothing can end the activity of the decision any more. */
  predicate Settled(w: World, i: nat)
    requires i < |w.store.decisions|
  {
    w.store.decisions[i].state.Triggered?
    && forall c :: c in w.calls && (w.calls[c].Creating? || w.calls[c].Failing?) ==> !About(w.calls[c], w.store.decisions[i])
  }

  predicate Rivals(a: Decision, b: Decision) { a.policyId == b.policyId && SameScope(a, b) }

  /** A settled decision of the same policy started no earlier, so the cooldown is judged by it. */
  predicate Shadowed(w: World, i: nat)
    requires i < |w.store.decisions|
  {
    exists b :: 0 <= b < |w.store.decisions| && Settled(w, b) && Rivals(w.store.decisions[b], w.store.decisions[i])
                && w.store.decisions[b].startedAt >= w.store.decisions[i].startedAt
  }

  /** j, admitted after i, keeps the cooldown it was admitted under. */
  predicate Gap(w: World, i: nat, j: nat)
    requires i < j < |w.store.decisions| == |w.inForce|
  {
    var a, b := w.store.decisions[i], w.store.decisions[j];
    Rivals(a, b) && w.inForce[j] > 0 ==> b.startedAt >= a.startedAt + w.inForce[j]
  }

  /** Every decision keeps its cooldown from every earlier one that is active. */
  ghost predicate Spaced(w: World) {
    && |w.inForce| == |w.store.decisions|
    && forall i, j :: 0 <= i < j < |w.store.decisions| && Active(w.store.decisions[i]) ==> Gap(w, i, j)
  }

  /** A decision is not reconciled as failed while a call may still write that it is triggered,
      unless a settled decision of its policy started no earlier. */
  predicate Careful(w: World, s: Step) {
    s.Reconcile? && s.r.CreationFailed? && ReconcileIn(w.store, s.policyId, s.eventId, s.r).1.Ok? ==>
      var k := IndexOf(w.store.decisions, s.policyId, s.eventId);
      Owed(w, k) ==> Shadowed(w, k)
  }

  predicate CarefulFrom(w: World, maxDepth: nat, steps: seq<Step>) {
    steps != [] ==>
      && CarefulFrom(w, maxDepth, steps[..|steps| - 1])
      && Careful(Run(w, maxDepth, steps[..|steps| - 1]), steps[|steps| - 1])
  }

  // ---------------------------------------------------------------- live calls

  /** A live call has its decision to itself; what it may find there. */
  ghost predicate LiveInv(w: World, maxDepth: nat) {
    && (forall c :: c in w.calls && Live(w.calls[c]) ==>
          maxDepth > 0 && Decided(w.store.decisions, w.calls[c].policy.id, w.calls[c].event.id))
    && (forall c, d :: c in w.calls && d in w.calls && c != d && Live(w.calls[c]) && Live(w.calls[d]) ==>
          (w.calls[c].policy.id, w.calls[c].event.id) != (w.calls[d].policy.id, w.calls[d].event.id))
    && (forall i :: 0 <= i < |w.store.decisions| ==> FreshInv(w, i))
  }

  /** A started decision has no resource and no dispatch yet; a dispatching call has marked its decision. */
  predicate FreshInv(w: World, i: nat)
    requires i < |w.store.decisions|
  {
    && (w.store.decisions[i].state.Started? ==> w.store.decisions[i].resource.None? && w.store.decisions[i].dispatch.NotRequested?)
    && (forall c :: c in w.calls && w.calls[c].Dispatching? && About(w.calls[c], w.store.decisions[i]) ==> w.store.decisions[i].state.Triggered?)
  }

  ghost predicate WorldInv(w: World, maxDepth: nat) { CreationInv(w, maxDepth) && LiveInv(w, maxDepth) }

  lemma IndexOfOne(w: World, maxDepth: nat, i: nat)
    requires CreationInv(w, maxDepth) && i < |w.store.decisions|
    ensures IndexOf(w.store.decisions, w.store.decisions[i].policyId, w.store.decisions[i].eventId) == i
  {}

  /** A step that admits nothing: decisions keep their keys, live calls were live before. */
  lemma QuietStepKeepsLive(w: World, maxDepth: nat, next: World)
    requires LiveInv(w, maxDepth) && |next.store.decisions| == |w.store.decisions| && KeepsKeys(w.store.decisions, next.store.decisions)
    requires forall c :: c in next.calls && Live(next.calls[c]) ==>
      && c in w.calls && Live(w.calls[c])
      && (next.calls[c].policy.id, next.calls[c].event.id) == (w.calls[c].policy.id, w.calls[c].event.id)
    requires forall i :: 0 <= i < |next.store.decisions| ==> FreshInv(next, i)
    ensures LiveInv(next, maxDepth)
  {
    forall c | c in next.calls && Live(next.calls[c]) ensures Decided(next.store.decisions, next.calls[c].policy.id, next.calls[c].event.id) {
      var i :| 0 <= i < |w.store.decisions| && Same(w.store.decisions[i], w.calls[c].policy.id, w.calls[c].event.id);
      assert Same(next.store.decisions[i], next.calls[c].policy.id, next.calls[c].event.id);
    }
  }

  /** The call's decision is rewritten: what an outcome, a dispatch or a reconciliation does. */
  ghost predicate Rewrites(w: World, next: World, k: nat) {
    && k < |w.store.decisions| && next.inForce == w.inForce
    && |next.store.decisions| == |w.store.decisions| && KeepsKeys(w.store.decisions, next.store.decisions)
    && (forall i :: 0 <= i < |w.store.decisions| && i != k ==> next.store.decisions[i] == w.store.decisions[i])
  }

  /** Live calls of `next` were live, and one that may write `triggered` or `failed` might have before. */
  ghost predicate CallsFrom(w: World, next: World) {
    forall c :: c in next.calls && Live(next.calls[c]) ==>
      && c in w.calls && Live(w.calls[c])
      && (next.calls[c].policy.id, next.calls[c].event.id) == (w.calls[c].policy.id, w.calls[c].event.id)
      && (next.calls[c].Creating? || next.calls[c].Marking? ==> w.calls[c].Creating? || w.calls[c].Marking?)
      && (next.calls[c].Creating? || next.calls[c].Failing? ==> w.calls[c].Creating? || w.calls[c].Failing?)
  }

  lemma OutcomeRewrites(w: World, maxDepth: nat, c: nat, now: Time, resource: Option<Id>) returns (k: nat)
    requires WorldInv(w, maxDepth) && |w.inForce| == |w.store.decisions|
    requires c in w.calls && (w.calls[c].Marking? || w.calls[c].Failing? || w.calls[c].Dispatching?)
    ensures var next := Next(w, maxDepth, Advance(c, now, resource));
      && Rewrites(w, next, k) && CallsFrom(w, next) && About(w.calls[c], w.store.decisions[k])
      && (forall d :: d in w.calls && d != c && Live(w.calls[d]) ==> !About(w.calls[d], w.store.decisions[k]))
      && next.calls == w.calls[c := next.calls[c]] && (next.calls[c].Done? || (next.calls[c].Dispatching? && w.calls[c].Marking?))
      && next.store.decisions[k].resource == (if w.calls[c].Marking? then Some(w.calls[c].resource) else w.store.decisions[k].resource)
      && next.store.decisions[k].state ==
        match w.calls[c] { case Marking(_, _, _) => Triggered case Failing(_, _) => Failed case _ => w.store.decisions[k].state }
  {
    var call := w.calls[c];
    k := IndexOf(w.store.decisions, call.policy.id, call.event.id);
    assert Decided(w.store.decisions, call.policy.id, call.event.id);
  }

  lemma OutcomeKeepsLive(w: World, maxDepth: nat, c: nat, now: Time, resource: Option<Id>)
    requires WorldInv(w, maxDepth) && |w.inForce| == |w.store.decisions|
    requires c in w.calls && (w.calls[c].Marking? || w.calls[c].Failing? || w.calls[c].Dispatching?)
    ensures LiveInv(Next(w, maxDepth, Advance(c, now, resource)), maxDepth)
  {
    var next := Next(w, maxDepth, Advance(c, now, resource));
    var k := OutcomeRewrites(w, maxDepth, c, now, resource);
    assert FreshInv(w, k);
    forall i | 0 <= i < |next.store.decisions| ensures FreshInv(next, i) { assert FreshInv(w, i); }
    QuietStepKeepsLive(w, maxDepth, next);
  }

  /** A claim that admits nothing leaves the decisions; one that admits appends one that was not decided. */
  lemma ClaimAdmits(w: World, maxDepth: nat, c: nat, now: Time, resource: Option<Id>)
    requires c in w.calls && w.calls[c].Claiming? && |w.inForce| == |w.store.decisions|
    ensures var next, p, e, n := Next(w, maxDepth, Advance(c, now, resource)), w.calls[c].policy, w.calls[c].event, |w.store.decisions|;
      && next.calls == w.calls[c := next.calls[c]] && |next.inForce| == |next.store.decisions|
      && (|next.store.decisions| == n ==> next.store == w.store && next.inForce == w.inForce && next.calls[c].Done?)
      && (|next.store.decisions| != n ==>
            && next.store.decisions == w.store.decisions + [DraftFor(p, e, maxDepth).(startedAt := now)]
            && next.inForce == w.inForce + [p.cooldown] && !Decided(w.store.decisions, p.id, e.id)
            && next.calls[c] == if e.depth + 1 > maxDepth then Done else Creating(p, e))
  {}

  lemma ClaimKeepsLive(w: World, maxDepth: nat, c: nat, now: Time, resource: Option<Id>)
    requires WorldInv(w, maxDepth) && |w.inForce| == |w.store.decisions| && c in w.calls && w.calls[c].Claiming?
    ensures LiveInv(Next(w, maxDepth, Advance(c, now, resource)), maxDepth)
  {
    var next, n := Next(w, maxDepth, Advance(c, now, resource)), |w.store.decisions|;
    var p, e := w.calls[c].policy, w.calls[c].event;
    ClaimAdmits(w, maxDepth, c, now, resource);
    forall i | 0 <= i < n ensures FreshInv(next, i) { assert FreshInv(w, i); }
    if |next.store.decisions| == n {
      QuietStepKeepsLive(w, maxDepth, next);
    } else {
      assert Same(next.store.decisions[n], p.id, e.id);
      forall d | d in next.calls && Live(next.calls[d])
        ensures Decided(next.store.decisions, next.calls[d].policy.id, next.calls[d].event.id)
        ensures d != c ==> (next.calls[d].policy.id, next.calls[d].event.id) != (p.id, e.id)
      {
        if d != c {
          assert Decided(w.store.decisions, w.calls[d].policy.id, w.calls[d].event.id);
          var i :| 0 <= i < n && Same(w.store.decisions[i], w.calls[d].policy.id, w.calls[d].event.id);
          assert Same(next.store.decisions[i], next.calls[d].policy.id, next.calls[d].event.id);
        }
      }
      assert FreshInv(next, n);
    }
  }

  /** A reconciliation that succeeds moves a started decision on, or records the dispatch of a triggered one. */
  lemma ReconcileRewrites(w: World, maxDepth: nat, s: Step)
    requires s.Reconcile? && ReconcileIn(w.store, s.policyId, s.eventId, s.r).1.Ok? && |w.inForce| == |w.store.decisions|
    ensures var next, k := Next(w, maxDepth, s), IndexOf(w.store.decisions, s.policyId, s.eventId);
      && Rewrites(w, next, k) && next.calls == w.calls && CallsFrom(w, next)
      && (if s.r.ResourceCreated? then w.store.decisions[k].state.Started? && next.store.decisions[k].state.Triggered?
          else if s.r.CreationFailed? then w.store.decisions[k].state.Started? && next.store.decisions[k].state.Failed?
          else w.store.decisions[k].state.Triggered? && next.store.decisions[k].state.Triggered?)
  {}

  lemma ReconcileKeepsLive(w: World, maxDepth: nat, s: Step)
    requires WorldInv(w, maxDepth) && |w.inForce| == |w.store.decisions|
    requires s.Reconcile? && ReconcileIn(w.store, s.policyId, s.eventId, s.r).1.Ok?
    ensures LiveInv(Next(w, maxDepth, s), maxDepth)
  {
    var next := Next(w, maxDepth, s);
    ReconcileRewrites(w, maxDepth, s);
    forall i | 0 <= i < |next.store.decisions| ensures FreshInv(next, i) { assert FreshInv(w, i); }
    QuietStepKeepsLive(w, maxDepth, next);
  }

  /** A step that leaves the decisions as they are. */
  lemma IdleKeepsLive(w: World, maxDepth: nat, next: World)
    requires LiveInv(w, maxDepth) && next.store.decisions == w.store.decisions && CallsFrom(w, next)
    requires forall c :: c in next.calls && next.calls[c].Dispatching? ==> c in w.calls && w.calls[c].Dispatching?
    ensures LiveInv(next, maxDepth)
  {
    forall i | 0 <= i < |next.store.decisions| ensures FreshInv(next, i) { assert FreshInv(w, i); }
    QuietStepKeepsLive(w, maxDepth, next);
  }

  lemma StepKeepsWorld(w: World, maxDepth: nat, s: Step)
    requires WorldInv(w, maxDepth) && |w.inForce| == |w.store.decisions|
    ensures WorldInv(Next(w, maxDepth, s), maxDepth) && |Next(w, maxDepth, s).inForce| == |Next(w, maxDepth, s).store.decisions|
  {
    StepKeepsCreationInv(w, maxDepth, s);
    if s.Advance? && s.c in w.calls && w.calls[s.c].Claiming? {
      ClaimAdmits(w, maxDepth, s.c, s.now, s.resource);
      ClaimKeepsLive(w, maxDepth, s.c, s.now, s.resource);
    } else if s.Advance? && s.c in w.calls && Live(w.calls[s.c]) && !w.calls[s.c].Creating? {
      OutcomeKeepsLive(w, maxDepth, s.c, s.now, s.resource);
    } else if s.Reconcile? && ReconcileIn(w.store, s.policyId, s.eventId, s.r).1.Ok? {
      ReconcileKeepsLive(w, maxDepth, s);
      ReconcileRewrites(w, maxDepth, s);
    } else {
      IdleKeepsLive(w, maxDepth, Next(w, maxDepth, s));
    }
  }

  // ---------------------------------------------------------------- careful runs are spaced

  predicate Counts(w: World, i: nat)
    requires i < |w.store.decisions|
  {
    Active(w.store.decisions[i]) || Owed(w, i)
  }

  /** Decisions that are active or may become so keep their distance, and one that is not active
      now is shadowed. */
  ghost predicate SafeInv(w: World) {
    && |w.inForce| == |w.store.decisions|
    && (forall i, j :: 0 <= i < j < |w.store.decisions| && Counts(w, i) ==> Gap(w, i, j))
    && (forall i :: 0 <= i < |w.store.decisions| && Owed(w, i) ==> Active(w.store.decisions[i]) || Shadowed(w, i))
  }

  lemma SafeIsSpaced(w: World)
    requires SafeInv(w)
    ensures Spaced(w)
  {
    forall i, j | 0 <= i < j < |w.store.decisions| && Active(w.store.decisions[i]) ensures Gap(w, i, j) { assert Counts(w, i); }
  }

  /** Rewriting decision k keeps the world safe when it does not awake one that does not count,
      keeps a settled one, and leaves an owed one active or shadowed. */
  lemma RewriteKeepsSafe(w: World, next: World, k: nat)
    requires SafeInv(w) && Rewrites(w, next, k) && CallsFrom(w, next)
    requires Active(next.store.decisions[k]) ==> Counts(w, k)
    requires Settled(w, k) ==> next.store.decisions[k].state.Triggered?
    requires Owed(next, k) ==> Active(next.store.decisions[k]) || (Shadowed(w, k) && !Settled(w, k))
    ensures SafeInv(next)
  {
    var before, after := w.store.decisions, next.store.decisions;
    forall i | 0 <= i < |after| && Owed(next, i) ensures Owed(w, i) {
      var c :| c in next.calls && (next.calls[c].Creating? || next.calls[c].Marking?) && About(next.calls[c], after[i]);
      assert Live(next.calls[c]) && About(w.calls[c], before[i]);
    }
    forall b | 0 <= b < |after| && Settled(w, b) ensures Settled(next, b) {
      forall c | c in next.calls && (next.calls[c].Creating? || next.calls[c].Failing?) ensures !About(next.calls[c], after[b]) {
        assert Live(next.calls[c]) && !About(w.calls[c], before[b]);
      }
    }
    forall i | 0 <= i < |after| && Owed(next, i) ensures Active(after[i]) || Shadowed(next, i) {
      if Shadowed(w, i) {
        var b :| 0 <= b < |before| && Settled(w, b) && Rivals(before[b], before[i]) && before[b].startedAt >= before[i].startedAt;
        assert Settled(next, b) && Rivals(after[b], after[i]);
      }
    }
    forall i, j | 0 <= i < j < |after| && Counts(next, i) ensures Gap(next, i, j) {
      assert Counts(w, i) && Gap(w, i, j);
    }
  }

  lemma OutcomeKeepsSafe(w: World, maxDepth: nat, c: nat, now: Time, resource: Option<Id>)
    requires WorldInv(w, maxDepth) && SafeInv(w) && c in w.calls && Live(w.calls[c]) && !w.calls[c].Creating?
    ensures SafeInv(Next(w, maxDepth, Advance(c, now, resource)))
  {
    var next := Next(w, maxDepth, Advance(c, now, resource));
    var k := OutcomeRewrites(w, maxDepth, c, now, resource);
    assert FreshInv(w, k);
    if w.calls[c].Marking? { assert Owed(w, k); }
    assert !Owed(next, k);
    RewriteKeepsSafe(w, next, k);
  }

  lemma ReconcileKeepsSafe(w: World, maxDepth: nat, s: Step)
    requires WorldInv(w, maxDepth) && SafeInv(w) && Careful(w, s)
    requires s.Reconcile? && ReconcileIn(w.store, s.policyId, s.eventId, s.r).1.Ok?
    ensures SafeInv(Next(w, maxDepth, s))
  {
    var next, k := Next(w, maxDepth, s), IndexOf(w.store.decisions, s.policyId, s.eventId);
    ReconcileRewrites(w, maxDepth, s);
    if Owed(next, k) {
      var c :| c in next.calls && (next.calls[c].Creating? || next.calls[c].Marking?) && About(next.calls[c], next.store.decisions[k]);
      assert About(w.calls[c], w.store.decisions[k]);
    }
    RewriteKeepsSafe(w, next, k);
  }

  lemma IdleKeepsSafe(w: World, next: World)
    requires SafeInv(w) && next.store.decisions == w.store.decisions && next.inForce == w.inForce && CallsFrom(w, next)
    ensures SafeInv(next)
  {
    if w.store.decisions != [] {
      if Owed(next, 0) {
        var c :| c in next.calls && (next.calls[c].Creating? || next.calls[c].Marking?) && About(next.calls[c], next.store.decisions[0]);
        assert Live(next.calls[c]) && About(w.calls[c], w.store.decisions[0]);
        assert Owed(w, 0);
      }
      if Settled(w, 0) && Owed(w, 0) { assert Active(w.store.decisions[0]); }
      assert Active(w.store.decisions[0]) ==> Counts(w, 0);
      RewriteKeepsSafe(w, next, 0);
    }
  }

  /** An admission changes nothing about the decisions before it. */
  lemma AdmissionKeeps(w: World, maxDepth: nat, c: nat, now: Time, resource: Option<Id>, i: nat)
    requires WorldInv(w, maxDepth) && |w.inForce| == |w.store.decisions| && c in w.calls && w.calls[c].Claiming? && i < |w.store.decisions|
    requires |Next(w, maxDepth, Advance(c, now, resource)).store.decisions| != |w.store.decisions|
    ensures var next := Next(w, maxDepth, Advance(c, now, resource));
      && i < |next.store.decisions| && next.store.decisions[i] == w.store.decisions[i]
      && (Owed(next, i) ==> Owed(w, i)) && (Settled(w, i) ==> Settled(next, i))
  {
    var next, d := Next(w, maxDepth, Advance(c, now, resource)), w.store.decisions[i];
    ClaimAdmits(w, maxDepth, c, now, resource);
    assert Same(d, d.policyId, d.eventId);
    assert !About(next.calls[c], d);
    if Owed(next, i) {
      var e :| e in next.calls && (next.calls[e].Creating? || next.calls[e].Marking?) && About(next.calls[e], d);
      assert e in w.calls && About(w.calls[e], d);
    }
  }

  lemma AdmissionKeepsShadows(w: World, maxDepth: nat, c: nat, now: Time, resource: Option<Id>, i: nat)
    requires WorldInv(w, maxDepth) && |w.inForce| == |w.store.decisions| && c in w.calls && w.calls[c].Claiming? && i < |w.store.decisions|
    requires |Next(w, maxDepth, Advance(c, now, resource)).store.decisions| != |w.store.decisions| && Shadowed(w, i)
    ensures var next := Next(w, maxDepth, Advance(c, now, resource)); i < |next.store.decisions| && Shadowed(next, i)
  {
    var before := w.store.decisions;
    var b :| 0 <= b < |before| && Settled(w, b) && Rivals(before[b], before[i]) && before[b].startedAt >= before[i].startedAt;
    AdmissionKeeps(w, maxDepth, c, now, resource, b);
    AdmissionKeeps(w, maxDepth, c, now, resource, i);
  }

  /** The call that was admitted owes only its own decision, which is active. */
  lemma AdmittedIsActive(w: World, maxDepth: nat, c: nat, now: Time, resource: Option<Id>)
    requires WorldInv(w, maxDepth) && |w.inForce| == |w.store.decisions| && c in w.calls && w.calls[c].Claiming?
    requires |Next(w, maxDepth, Advance(c, now, resource)).store.decisions| != |w.store.decisions|
    ensures var next, n := Next(w, maxDepth, Advance(c, now, resource)), |w.store.decisions|;
      |next.store.decisions| == n + 1 && (Owed(next, n) ==> Active(next.store.decisions[n]))
  {
    var next, n := Next(w, maxDepth, Advance(c, now, resource)), |w.store.decisions|;
    ClaimAdmits(w, maxDepth, c, now, resource);
    if Owed(next, n) {
      var d :| d in next.calls && (next.calls[d].Creating? || next.calls[d].Marking?) && About(next.calls[d], next.store.decisions[n]);
      assert d == c;
    }
  }

  lemma ClaimKeepsSafe(w: World, maxDepth: nat, c: nat, now: Time, resource: Option<Id>)
    requires WorldInv(w, maxDepth) && SafeInv(w) && c in w.calls && w.calls[c].Claiming?
    ensures SafeInv(Next(w, maxDepth, Advance(c, now, resource)))
  {
    var next, n := Next(w, maxDepth, Advance(c, now, resource)), |w.store.decisions|;
    ClaimAdmits(w, maxDepth, c, now, resource);
    if |next.store.decisions| == n {
      IdleKeepsSafe(w, next);
    } else {
      AdmittedIsActive(w, maxDepth, c, now, resource);
      forall i | 0 <= i < n && Owed(next, i) ensures Active(next.store.decisions[i]) || Shadowed(next, i) {
        AdmissionKeeps(w, maxDepth, c, now, resource, i);
        if Shadowed(w, i) { AdmissionKeepsShadows(w, maxDepth, c, now, resource, i); }
      }
      forall i, j | 0 <= i < j < n + 1 && Counts(next, i) ensures Gap(next, i, j) {
        AdmissionKeeps(w, maxDepth, c, now, resource, i);
        assert Counts(w, i);
        if j < n { assert Gap(w, i, j); } else { AdmittedIsApart(w, maxDepth, c, now, resource, i); }
      }
    }
  }

  /** The newly admitted decision keeps the cooldown from every one that counts. */
  lemma AdmittedIsApart(w: World, maxDepth: nat, c: nat, now: Time, resource: Option<Id>, i: nat)
    requires SafeInv(w) && c in w.calls && w.calls[c].Claiming? && i < |w.store.decisions| && Counts(w, i)
    requires |Next(w, maxDepth, Advance(c, now, resource)).store.decisions| == |w.store.decisions| + 1
    ensures var next := Next(w, maxDepth, Advance(c, now, resource)); |next.inForce| == |next.store.decisions| && Gap(next, i, |w.store.decisions|)
  {
    var n, p, e := |w.store.decisions|, w.calls[c].policy, w.calls[c].event;
    var next, draft := Next(w, maxDepth, Advance(c, now, resource)), DraftFor(p, e, maxDepth);
    ClaimAdmits(w, maxDepth, c, now, resource);
    if Rivals(w.store.decisions[i], next.store.decisions[n]) && p.cooldown > 0 {
      if Active(w.store.decisions[i]) {
        AdmissionRespectsCooldown(w.store, draft, Guard(p, e.occurredAt), now, i);
      } else {
        var b :| 0 <= b < n && Settled(w, b) && Rivals(w.store.decisions[b], w.store.decisions[i])
          && w.store.decisions[b].startedAt >= w.store.decisions[i].startedAt;
        AdmissionRespectsCooldown(w.store, draft, Guard(p, e.occurredAt), now, b);
      }
    }
  }

  lemma StepKeepsSafe(w: World, maxDepth: nat, s: Step)
    requires WorldInv(w, maxDepth) && SafeInv(w) && Careful(w, s)
    ensures SafeInv(Next(w, maxDepth, s))
  {
    if s.Advance? && s.c in w.calls && w.calls[s.c].Claiming? {
      ClaimKeepsSafe(w, maxDepth, s.c, s.now, s.resource);
    } else if s.Advance? && s.c in w.calls && Live(w.calls[s.c]) && !w.calls[s.c].Creating? {
      OutcomeKeepsSafe(w, maxDepth, s.c, s.now, s.resource);
    } else if s.Reconcile? && ReconcileIn(w.store, s.policyId, s.eventId, s.r).1.Ok? {
      ReconcileKeepsSafe(w, maxDepth, s);
    } else {
      IdleKeepsSafe(w, Next(w, maxDepth, s));
    }
  }

  lemma {:induction false} CarefulRunIsSafe(w: World, maxDepth: nat, steps: seq<Step>)
    requires WorldInv(w, maxDepth) && SafeInv(w) && CarefulFrom(w, maxDepth, steps)
    ensures WorldInv(Run(w, maxDepth, steps), maxDepth) && SafeInv(Run(w, maxDepth, steps))
  {
    if steps != [] {
      CarefulRunIsSafe(w, maxDepth, steps[..|steps| - 1]);
      var before := Run(w, maxDepth, steps[..|steps| - 1]);
      StepKeepsWorld(before, maxDepth, steps[|steps| - 1]);
      StepKeepsSafe(before, maxDepth, steps[|steps| - 1]);
    }
  }

  /** Every careful run keeps each decision apart from every earlier active one of its policy by
      the cooldown it was admitted under. */
  lemma ActiveDecisionsStayApart(maxDepth: nat, steps: seq<Step>)
    requires CarefulFrom(NOTHING, maxDepth, steps)
    ensures Spaced(Run(NOTHING, maxDepth, steps))
  {
    CarefulRunIsSafe(NOTHING, maxDepth, steps);
    SafeIsSpaced(Run(NOTHING, maxDepth, steps));
  }

  // ---------------------------------------------------------------- careless ones can be broken

  lemma {:induction false} RunsJoin(w: World, maxDepth: nat, first: seq<Step>, rest: seq<Step>)
    ensures Run(w, maxDepth, first + rest) == Run(Run(w, maxDepth, first), maxDepth, rest)
    ensures CarefulFrom(w, maxDepth, first + rest) <==> CarefulFrom(w, maxDepth, first) && CarefulFrom(Run(w, maxDepth, first), maxDepth, rest)
  {
    if rest == [] {
      assert first + rest == first;
    } else {
      RunsJoin(w, maxDepth, first, rest[..|rest| - 1]);
      assert (first + rest)[..|first + rest| - 1] == first + rest[..|rest| - 1];
    }
  }

  lemma RunOfOne(w: World, maxDepth: nat, s: Step)
    ensures Run(w, maxDepth, [s]) == Next(w, maxDepth, s)
    ensures CarefulFrom(w, maxDepth, [s]) <==> Careful(w, s)
  {
    assert [s][..0] == [];
  }

  /** Decision k is not active, but the call c may still write that it is triggered, and nothing
      shadows it. */
  ghost predicate Exposed(w: World, maxDepth: nat, k: nat, c: nat) {
    && WorldInv(w, maxDepth) && k < |w.store.decisions| == |w.inForce| && !Active(w.store.decisions[k]) && !Shadowed(w, k)
    && c in w.calls && (w.calls[c].Creating? || w.calls[c].Marking?) && About(w.calls[c], w.store.decisions[k])
  }

  /** An active decision of the policy that started no earlier keeps others away from k. */
  predicate Guards(w: World, i: nat, k: nat)
    requires i < |w.store.decisions| && k < |w.store.decisions|
  {
    Active(w.store.decisions[i]) && Rivals(w.store.decisions[i], w.store.decisions[k])
    && w.store.decisions[i].startedAt >= w.store.decisions[k].startedAt
  }

  /** Decision i is over and its call with it; nothing else has changed. */
  ghost predicate Lifted(w: World, next: World, i: nat) {
    && i < |w.store.decisions| && |next.store.decisions| == |w.store.decisions| && next.inForce == w.inForce
    && next.store.policies == w.store.policies
    && KeepsKeys(w.store.decisions, next.store.decisions)
    && (forall j :: 0 <= j < |w.store.decisions| && j != i ==> next.store.decisions[j] == w.store.decisions[j])
    && !Active(next.store.decisions[i])
    && (forall c :: c in w.calls && !About(w.calls[c], w.store.decisions[i]) ==> c in next.calls && next.calls[c] == w.calls[c])
    && (forall c :: c in next.calls ==> c in w.calls)
  }

  lemma LiftKeepsShadows(w: World, next: World, maxDepth: nat, k: nat, i: nat)
    requires WorldInv(w, maxDepth) && k < |w.store.decisions| && Lifted(w, next, i)
    ensures Shadowed(next, k) ==> Shadowed(w, k)
  {
    var before, after := w.store.decisions, next.store.decisions;
    assert Same(after[k], before[k].policyId, before[k].eventId);
    if Shadowed(next, k) {
      var b :| 0 <= b < |after| && Settled(next, b) && Rivals(after[b], after[k]) && after[b].startedAt >= after[k].startedAt;
      assert b != i;
      forall d | d in w.calls && (w.calls[d].Creating? || w.calls[d].Failing?) ensures !About(w.calls[d], before[b]) {
        assert !(About(w.calls[d], before[i]) && About(w.calls[d], before[b]));
      }
      assert Settled(w, b) && Rivals(before[b], before[k]);
    }
  }

  lemma LiftKeepsExposed(w: World, next: World, maxDepth: nat, k: nat, c: nat, i: nat)
    requires Exposed(w, maxDepth, k, c) && i != k && Lifted(w, next, i) && WorldInv(next, maxDepth)
    ensures Exposed(next, maxDepth, k, c)
  {
    LiftKeepsShadows(w, next, maxDepth, k, i);
    assert !About(w.calls[c], w.store.decisions[i]);
  }

  function FailureOf(d: Decision): Step { Reconcile(d.policyId, d.eventId, CreationFailed) }

  /** Once no call owes it an outcome, a started decision can be reconciled as failed. */
  lemma FailureLifts(w: World, maxDepth: nat, i: nat)
    requires WorldInv(w, maxDepth) && i < |w.store.decisions| == |w.inForce| && w.store.decisions[i].state.Started? && !Owed(w, i)
    ensures var s := FailureOf(w.store.decisions[i]);
      Careful(w, s) && Lifted(w, Next(w, maxDepth, s), i) && WorldInv(Next(w, maxDepth, s), maxDepth)
  {
    var s := FailureOf(w.store.decisions[i]);
    assert FreshInv(w, i);
    IndexOfOne(w, maxDepth, i);
    StepKeepsWorld(w, maxDepth, s);
    assert ReconcileIn(w.store, s.policyId, s.eventId, s.r).1.Ok?;
    ReconcileRewrites(w, maxDepth, s);
  }

  lemma CrashFrees(w: World, maxDepth: nat, i: nat, c: nat)
    requires WorldInv(w, maxDepth) && i < |w.store.decisions| == |w.inForce|
    requires c in w.calls && Live(w.calls[c]) && About(w.calls[c], w.store.decisions[i])
    ensures !Owed(Next(w, maxDepth, Crash(c)), i) && WorldInv(Next(w, maxDepth, Crash(c)), maxDepth)
  {
    StepKeepsWorld(w, maxDepth, Crash(c));
  }

  /** A started decision is lifted by crashing its call, if any, and reconciling it as failed. */
  lemma LiftStarted(w: World, maxDepth: nat, i: nat) returns (steps: seq<Step>)
    requires WorldInv(w, maxDepth) && i < |w.store.decisions| == |w.inForce| && w.store.decisions[i].state.Started?
    ensures CarefulFrom(w, maxDepth, steps) && WorldInv(Run(w, maxDepth, steps), maxDepth) && Lifted(w, Run(w, maxDepth, steps), i)
  {
    var d := w.store.decisions[i];
    if Owed(w, i) {
      var c :| c in w.calls && (w.calls[c].Creating? || w.calls[c].Marking?) && About(w.calls[c], d);
      var crashed := Next(w, maxDepth, Crash(c));
      CrashFrees(w, maxDepth, i, c);
      FailureLifts(crashed, maxDepth, i);
      steps := [Crash(c)] + [FailureOf(d)];
      RunsJoin(w, maxDepth, [Crash(c)], [FailureOf(d)]);
      RunOfOne(w, maxDepth, Crash(c));
      RunOfOne(crashed, maxDepth, FailureOf(d));
    } else {
      FailureLifts(w, maxDepth, i);
      steps := [FailureOf(d)];
      RunOfOne(w, maxDepth, FailureOf(d));
    }
  }

  lemma FailingLifts(w: World, maxDepth: nat, i: nat, c: nat)
    requires WorldInv(w, maxDepth) && i < |w.store.decisions| == |w.inForce|
    requires c in w.calls && w.calls[c].Failing? && About(w.calls[c], w.store.decisions[i])
    ensures Lifted(w, Next(w, maxDepth, Advance(c, 0, None)), i)
  {
    var k := OutcomeRewrites(w, maxDepth, c, 0, None);
    assert k == i;
  }

  /** A triggered decision that is not settled is lifted by its own call, which fails. */
  lemma LiftTriggered(w: World, maxDepth: nat, i: nat) returns (steps: seq<Step>)
    requires WorldInv(w, maxDepth) && i < |w.store.decisions| == |w.inForce| && w.store.decisions[i].state.Triggered? && !Settled(w, i)
    ensures CarefulFrom(w, maxDepth, steps) && WorldInv(Run(w, maxDepth, steps), maxDepth) && Lifted(w, Run(w, maxDepth, steps), i)
  {
    var c :| c in w.calls && (w.calls[c].Creating? || w.calls[c].Failing?) && About(w.calls[c], w.store.decisions[i]);
    var move := Advance(c, 0, None);
    RunOfOne(w, maxDepth, move);
    if w.calls[c].Failing? {
      FailingLifts(w, maxDepth, i, c);
      StepKeepsWorld(w, maxDepth, move);
      steps := [move];
    } else {
      var failing := Next(w, maxDepth, move);
      StepKeepsWorld(w, maxDepth, move);
      assert failing.calls == w.calls[c := Failing(w.calls[c].policy, w.calls[c].event)] && failing.store == w.store;
      FailingLifts(failing, maxDepth, i, c);
      StepKeepsWorld(failing, maxDepth, move);
      steps := [move] + [move];
      RunsJoin(w, maxDepth, [move], [move]);
      RunOfOne(failing, maxDepth, move);
    }
  }

  lemma LiftGuard(w: World, maxDepth: nat, k: nat, c: nat, i: nat) returns (steps: seq<Step>)
    requires Exposed(w, maxDepth, k, c) && i < |w.store.decisions| && Guards(w, i, k)
    ensures CarefulFrom(w, maxDepth, steps) && Exposed(Run(w, maxDepth, steps), maxDepth, k, c) && Lifted(w, Run(w, maxDepth, steps), i)
  {
    if w.store.decisions[i].state.Started? {
      steps := LiftStarted(w, maxDepth, i);
    } else {
      assert !Settled(w, i);
      steps := LiftTriggered(w, maxDepth, i);
    }
    LiftKeepsExposed(w, Run(w, maxDepth, steps), maxDepth, k, c, i);
  }

  /** Whatever guards an exposed decision below index m can be lifted. */
  lemma {:induction false} LiftGuards(w: World, maxDepth: nat, k: nat, c: nat, m: nat) returns (steps: seq<Step>)
    decreases m
    requires Exposed(w, maxDepth, k, c) && m <= |w.store.decisions|
    requires forall i :: m <= i < |w.store.decisions| ==> !Guards(w, i, k)
    ensures CarefulFrom(w, maxDepth, steps) && Exposed(Run(w, maxDepth, steps), maxDepth, k, c)
    ensures var next := Run(w, maxDepth, steps);
      && |next.store.decisions| == |w.store.decisions| && next.store.decisions[k] == w.store.decisions[k]
      && forall i :: 0 <= i < |next.store.decisions| ==> !Guards(next, i, k)
  {
    if m == 0 {
      steps := [];
    } else if !Guards(w, m - 1, k) {
      steps := LiftGuards(w, maxDepth, k, c, m - 1);
    } else {
      var first := LiftGuard(w, maxDepth, k, c, m - 1);
      var next := Run(w, maxDepth, first);
      forall j | m - 1 <= j < |next.store.decisions| ensures !Guards(next, j, k) { assert j >= m ==> !Guards(w, j, k); }
      var rest := LiftGuards(next, maxDepth, k, c, m - 1);
      RunsJoin(w, maxDepth, first, rest);
      steps := first + rest;
    }
  }

  /** A policy and an event of the decision's scope that nothing but the cooldown keeps out. */
  function RivalPolicy(d: Decision, cooldown: nat): Policy {
    Policy(d.policyId, d.owner, d.tenant, true, ["x"], None, None, None, None, [], false, cooldown)
  }

  function RivalEvent(d: Decision, id: Id, now: Time): TriggerEvent {
    TriggerEvent(id, "x", "x", d.owner, d.tenant, None, None, None, None, 0, now)
  }

  lemma {:induction false} UnusedId(decisions: seq<Decision>) returns (id: Id)
    ensures forall i :: 0 <= i < |decisions| ==> |decisions[i].eventId| < |id|
  {
    id := "x";
    if decisions != [] {
      var last := decisions[|decisions| - 1].eventId;
      var before := UnusedId(decisions[..|decisions| - 1]);
      id := before + last + "x";
      assert forall i :: 0 <= i < |decisions| - 1 ==> decisions[i] == decisions[..|decisions| - 1][i];
    }
  }

  lemma {:induction false} PreviousIsOne(decisions: seq<Decision>, d: Decision)
    ensures Previous(decisions, d).Some? ==>
      exists i :: 0 <= i < |decisions| && decisions[i] == Previous(decisions, d).value && Active(decisions[i]) && Rivals(decisions[i], d)
  {
    if decisions != [] {
      var n := |decisions| - 1;
      PreviousIsOne(decisions[..n], d);
      assert forall i :: 0 <= i < n ==> decisions[..n][i] == decisions[i];
    }
  }

  /** With nothing guarding the exposed decision a rival is admitted within the cooldown of it. */
  lemma RivalIsAdmitted(w: World, maxDepth: nat, k: nat, c: nat, cooldown: nat, id: Id)
    requires Exposed(w, maxDepth, k, c) && cooldown > 0 && maxDepth > 0
    requires forall i :: 0 <= i < |w.store.decisions| ==> !Guards(w, i, k) && w.store.decisions[i].eventId != id
    requires var d := w.store.decisions[k];
      c + 1 in w.calls && w.calls[c + 1] == Claiming(RivalPolicy(d, cooldown), RivalEvent(d, id, d.startedAt + cooldown - 1))
      && w.store.policies == map[d.policyId := RivalPolicy(d, cooldown)]
    ensures var d := w.store.decisions[k];
      var now := d.startedAt + cooldown - 1;
      var next := Next(w, maxDepth, Advance(c + 1, now, None));
      && next.store.decisions == w.store.decisions + [DraftFor(RivalPolicy(d, cooldown), RivalEvent(d, id, now), maxDepth).(startedAt := now)]
      && next.inForce == w.inForce + [cooldown] && c in next.calls && next.calls[c] == w.calls[c]
  {
    var d := w.store.decisions[k];
    var p, now := RivalPolicy(d, cooldown), d.startedAt + cooldown - 1;
    var e := RivalEvent(d, id, now);
    var admitted := DraftFor(p, e, maxDepth).(startedAt := now);
    assert IndexOf(w.store.decisions, p.id, e.id) == |w.store.decisions|;
    PreviousIsOne(w.store.decisions, admitted);
    if Previous(w.store.decisions, admitted).Some? {
      var i :| 0 <= i < |w.store.decisions| && w.store.decisions[i] == Previous(w.store.decisions, admitted).value
        && Active(w.store.decisions[i]) && Rivals(w.store.decisions[i], admitted);
      assert !Guards(w, i, k);
    }
    assert !CooldownBlocks(Previous(w.store.decisions, admitted), Guard(p, now), now);
  }

  /** The call writes that its decision is triggered, whatever that was before. */
  lemma LateWrite(w: World, maxDepth: nat, k: nat, c: nat) returns (steps: seq<Step>)
    requires WorldInv(w, maxDepth) && k < |w.store.decisions| == |w.inForce|
    requires c in w.calls && (w.calls[c].Creating? || w.calls[c].Marking?) && About(w.calls[c], w.store.decisions[k])
    ensures CarefulFrom(w, maxDepth, steps)
    ensures var next := Run(w, maxDepth, steps); Rewrites(w, next, k) && Active(next.store.decisions[k])
    decreases c in w.calls && w.calls[c].Creating?
  {
    if w.calls[c].Marking? {
      var move := Advance(c, 0, None);
      steps := [move];
      RunOfOne(w, maxDepth, move);
      var i := OutcomeRewrites(w, maxDepth, c, 0, None);
    } else {
      var move := Advance(c, 0, Some("resource"));
      var marking := Next(w, maxDepth, move);
      assert marking.calls[c] == Marking(w.calls[c].policy, w.calls[c].event, "resource") && marking.store == w.store;
      StepKeepsWorld(w, maxDepth, move);
      var rest := LateWrite(marking, maxDepth, k, c);
      RunsJoin(w, maxDepth, [move], rest);
      RunOfOne(w, maxDepth, move);
      steps := [move] + rest;
    }
  }

  /** Two active decisions of a policy are closer than the cooldown the later one was admitted under. */
  ghost predicate Broken(w: World) {
    && |w.inForce| == |w.store.decisions|
    && exists i, j :: 0 <= i < j < |w.store.decisions| && Active(w.store.decisions[i]) && Active(w.store.decisions[j]) && !Gap(w, i, j)
  }

  function Prelude(d: Decision, c: nat, p: Policy, e: TriggerEvent): seq<Step> { [SetPolicies(map[d.policyId := p]), Crash(c + 1), Deliver(c + 1, p, e)] }

  lemma PreludeReadies(w: World, maxDepth: nat, k: nat, c: nat, p: Policy, e: TriggerEvent)
    requires WorldInv(w, maxDepth) && k < |w.store.decisions| == |w.inForce| && c in w.calls
    requires Matches(p, e) && p.owner == e.owner && p.tenant == e.tenant
    ensures var d := w.store.decisions[k];
      var next := Run(w, maxDepth, Prelude(d, c, p, e));
      && CarefulFrom(w, maxDepth, Prelude(d, c, p, e)) && WorldInv(next, maxDepth)
      && next.store.decisions == w.store.decisions && next.inForce == w.inForce && next.store.policies == map[d.policyId := p]
      && c in next.calls && next.calls[c] == w.calls[c] && c + 1 in next.calls && next.calls[c + 1] == Claiming(p, e)
  {
    var s := Prelude(w.store.decisions[k], c, p, e);
    var one := Next(w, maxDepth, s[0]);
    var two := Next(one, maxDepth, s[1]);
    StepKeepsWorld(w, maxDepth, s[0]);
    StepKeepsWorld(one, maxDepth, s[1]);
    StepKeepsWorld(two, maxDepth, s[2]);
    RunOfOne(w, maxDepth, s[0]);
    RunOfOne(one, maxDepth, s[1]);
    RunOfOne(two, maxDepth, s[2]);
    RunsJoin(w, maxDepth, [s[0]], [s[1]]);
    RunsJoin(w, maxDepth, [s[0]] + [s[1]], [s[2]]);
    assert s == [s[0]] + [s[1]] + [s[2]];
  }

  lemma UnguardedIsUnshadowed(w: World, k: nat)
    requires k < |w.store.decisions| && forall i :: 0 <= i < |w.store.decisions| ==> !Guards(w, i, k)
    ensures !Shadowed(w, k)
  {
    forall b | 0 <= b < |w.store.decisions| && Settled(w, b)
      ensures !(Rivals(w.store.decisions[b], w.store.decisions[k]) && w.store.decisions[b].startedAt >= w.store.decisions[k].startedAt)
    {
      assert !Guards(w, b, k);
    }
  }

  /** A rival is admitted next to an exposed decision that nothing guards. */
  lemma RivalComes(w: World, maxDepth: nat, k: nat, c: nat, cooldown: nat) returns (steps: seq<Step>)
    requires Exposed(w, maxDepth, k, c) && cooldown > 0 && forall i :: 0 <= i < |w.store.decisions| ==> !Guards(w, i, k)
    ensures CarefulFrom(w, maxDepth, steps) && WorldInv(Run(w, maxDepth, steps), maxDepth)
    ensures var next, n := Run(w, maxDepth, steps), |w.store.decisions|;
      && |next.store.decisions| == n + 1 == |next.inForce| && next.store.decisions[..n] == w.store.decisions
      && Active(next.store.decisions[n]) && !Gap(next, k, n) && c in next.calls && next.calls[c] == w.calls[c]
  {
    var d, n := w.store.decisions[k], |w.store.decisions|;
    var id := UnusedId(w.store.decisions);
    var now := d.startedAt + cooldown - 1;
    var p, e := RivalPolicy(d, cooldown), RivalEvent(d, id, now);
    var prelude := Prelude(d, c, p, e);
    var ready := Run(w, maxDepth, prelude);
    PreludeReadies(w, maxDepth, k, c, p, e);
    forall i | 0 <= i < n ensures !Guards(ready, i, k) { assert !Guards(w, i, k); }
    UnguardedIsUnshadowed(ready, k);
    RivalIsAdmitted(ready, maxDepth, k, c, cooldown, id);
    var claim := Advance(c + 1, now, None);
    StepKeepsWorld(ready, maxDepth, claim);
    RunOfOne(ready, maxDepth, claim);
    RunsJoin(w, maxDepth, prelude, [claim]);
    steps := prelude + [claim];
  }

  /** Then the call of the exposed decision writes late. */
  lemma RivalBreaks(w: World, maxDepth: nat, k: nat, c: nat, cooldown: nat) returns (steps: seq<Step>)
    requires Exposed(w, maxDepth, k, c) && cooldown > 0 && forall i :: 0 <= i < |w.store.decisions| ==> !Guards(w, i, k)
    ensures CarefulFrom(w, maxDepth, steps) && Broken(Run(w, maxDepth, steps))
  {
    var n := |w.store.decisions|;
    var first := RivalComes(w, maxDepth, k, c, cooldown);
    var admitted := Run(w, maxDepth, first);
    assert admitted.store.decisions[k] == admitted.store.decisions[..n][k];
    var rest := LateWrite(admitted, maxDepth, k, c);
    RunsJoin(w, maxDepth, first, rest);
    steps := first + rest;
    var last := Run(admitted, maxDepth, rest);
    assert last.store.decisions[n] == admitted.store.decisions[n];
    assert Same(last.store.decisions[k], admitted.store.decisions[k].policyId, admitted.store.decisions[k].eventId);
    assert !Gap(last, k, n);
  }

  lemma ExposedBreaks(w: World, maxDepth: nat, k: nat, c: nat, cooldown: nat) returns (steps: seq<Step>)
    requires Exposed(w, maxDepth, k, c) && cooldown > 0
    ensures CarefulFrom(w, maxDepth, steps) && Broken(Run(w, maxDepth, steps))
  {
    var first := LiftGuards(w, maxDepth, k, c, |w.store.decisions|);
    var rest := RivalBreaks(Run(w, maxDepth, first), maxDepth, k, c, cooldown);
    RunsJoin(w, maxDepth, first, rest);
    steps := first + rest;
  }

  /** A careless reconciliation exposes its decision. */
  lemma CarelessExposes(w: World, maxDepth: nat, s: Step) returns (k: nat, c: nat)
    requires WorldInv(w, maxDepth) && |w.inForce| == |w.store.decisions| && !Careful(w, s)
    ensures Exposed(Next(w, maxDepth, s), maxDepth, k, c)
  {
    k := IndexOf(w.store.decisions, s.policyId, s.eventId);
    c :| c in w.calls && (w.calls[c].Creating? || w.calls[c].Marking?) && About(w.calls[c], w.store.decisions[k]);
    ReconcileRewrites(w, maxDepth, s);
    StepKeepsWorld(w, maxDepth, s);
    var next := Next(w, maxDepth, s);
    if Shadowed(next, k) { ShadowsWereThere(w, next, k); }
  }

  lemma ShadowsWereThere(w: World, next: World, k: nat)
    requires Rewrites(w, next, k) && next.calls == w.calls && !next.store.decisions[k].state.Triggered? && Shadowed(next, k)
    ensures Shadowed(w, k)
  {
    var before, after := w.store.decisions, next.store.decisions;
    var b :| 0 <= b < |after| && Settled(next, b) && Rivals(after[b], after[k]) && after[b].startedAt >= after[k].startedAt;
    assert Settled(w, b) && Rivals(before[b], before[k]);
  }

  /** After a careful run a step leaves every careful continuation spaced if and only if it is
      careful: a careless one has a continuation, careful from then on, that ends with two active
      decisions closer than the cooldown in force, whichever cooldown that is. */
  lemma SpacingSurvivesIff(maxDepth: nat, steps: seq<Step>, s: Step, cooldown: nat)
    requires CarefulFrom(NOTHING, maxDepth, steps) && cooldown > 0
    ensures var w := Run(NOTHING, maxDepth, steps);
      var next := Next(w, maxDepth, s);
      && ((forall rest :: CarefulFrom(next, maxDepth, rest) ==> Spaced(Run(next, maxDepth, rest))) <==> Careful(w, s))
      && (!Careful(w, s) ==> exists rest :: CarefulFrom(next, maxDepth, rest) && Broken(Run(next, maxDepth, rest)))
  {
    CarefulRunIsSafe(NOTHING, maxDepth, steps);
    var w := Run(NOTHING, maxDepth, steps);
    var next := Next(w, maxDepth, s);
    if Careful(w, s) {
      StepKeepsWorld(w, maxDepth, s);
      StepKeepsSafe(w, maxDepth, s);
      forall rest | CarefulFrom(next, maxDepth, rest) ensures Spaced(Run(next, maxDepth, rest)) {
        CarefulRunIsSafe(next, maxDepth, rest);
        SafeIsSpaced(Run(next, maxDepth, rest));
      }
    } else {
      var k, c := CarelessExposes(w, maxDepth, s);
      var rest := ExposedBreaks(next, maxDepth, k, c, cooldown);
      assert !Spaced(Run(next, maxDepth, rest));
    }
  }

  // ---------------------------------------------------------------- why the run must be careful

  lemma RunExtends(maxDepth: nat, steps: seq<Step>, s: Step)
    ensures Run(NOTHING, maxDepth, steps + [s]) == Next(Run(NOTHING, maxDepth, steps), maxDepth, s)
  {
    assert (steps + [s])[..|steps|] == steps;
  }

  /** The first event is claimed, reconciled as failed while its call still creates, and the second
      is admitted in the meantime. */
  function Overtaken(p: Policy, e1: TriggerEvent, e2: TriggerEvent, t1: Time, t2: Time): seq<Step> {
    [SetPolicies(map[p.id := p]), Deliver(0, p, e1), Advance(0, t1, None), Reconcile(p.id, e1.id, CreationFailed),
     Deliver(1, p, e2), Advance(1, t2, None)]
  }

  predicate TwoEvents(p: Policy, e1: TriggerEvent, e2: TriggerEvent, maxDepth: nat) {
    && Matches(p, e1) && Matches(p, e2) && e1.id != e2.id && e1.depth + 1 <= maxDepth && e2.depth + 1 <= maxDepth
    && p.owner == e1.owner == e2.owner && p.tenant == e1.tenant == e2.tenant
  }

  lemma FirstIsClaimed(p: Policy, e1: TriggerEvent, e2: TriggerEvent, t1: Time, t2: Time, maxDepth: nat)
    requires TwoEvents(p, e1, e2, maxDepth)
    ensures var w := Run(NOTHING, maxDepth, Overtaken(p, e1, e2, t1, t2)[..3]);
      && w.store.policies == map[p.id := p] && w.calls == map[0 := Creating(p, e1)]
      && w.store.decisions == [DraftFor(p, e1, maxDepth).(startedAt := t1)]
  {
    var steps := Overtaken(p, e1, e2, t1, t2);
    assert steps[..1] == [] + [steps[0]] && steps[..2] == steps[..1] + [steps[1]] && steps[..3] == steps[..2] + [steps[2]];
    RunExtends(maxDepth, [], steps[0]);
    RunExtends(maxDepth, steps[..1], steps[1]);
    RunExtends(maxDepth, steps[..2], steps[2]);
    var w := Run(NOTHING, maxDepth, steps[..2]);
    assert w.store == Store(map[p.id := p], []) && w.calls == map[0 := Claiming(p, e1)];
  }

  lemma FirstIsClaimedThenFailed(p: Policy, e1: TriggerEvent, e2: TriggerEvent, t1: Time, t2: Time, maxDepth: nat)
    requires TwoEvents(p, e1, e2, maxDepth)
    ensures var w := Run(NOTHING, maxDepth, Overtaken(p, e1, e2, t1, t2)[..4]);
      && w.store.policies == map[p.id := p] && w.calls == map[0 := Creating(p, e1)]
      && w.store.decisions == [DraftFor(p, e1, maxDepth).(startedAt := t1, state := Failed, dispatch := DispatchFailed)]
  {
    var steps := Overtaken(p, e1, e2, t1, t2);
    FirstIsClaimed(p, e1, e2, t1, t2, maxDepth);
    assert steps[..4] == steps[..3] + [steps[3]];
    RunExtends(maxDepth, steps[..3], steps[3]);
  }

  lemma SecondIsAdmitted(p: Policy, e1: TriggerEvent, e2: TriggerEvent, t1: Time, t2: Time, maxDepth: nat)
    requires TwoEvents(p, e1, e2, maxDepth)
    ensures var w := Run(NOTHING, maxDepth, Overtaken(p, e1, e2, t1, t2));
      && w.calls == map[0 := Creating(p, e1), 1 := Creating(p, e2)]
      && w.store.decisions == [DraftFor(p, e1, maxDepth).(startedAt := t1, state := Failed, dispatch := DispatchFailed),
                               DraftFor(p, e2, maxDepth).(startedAt := t2)]
  {
    var steps := Overtaken(p, e1, e2, t1, t2);
    FirstIsClaimedThenFailed(p, e1, e2, t1, t2, maxDepth);
    assert steps[..5] == steps[..4] + [steps[4]] && steps == steps[..5] + [steps[5]];
    RunExtends(maxDepth, steps[..4], steps[4]);
    RunExtends(maxDepth, steps[..5], steps[5]);
    var w := Run(NOTHING, maxDepth, steps[..5]);
    assert Previous(w.store.decisions[..1], DraftFor(p, e2, maxDepth).(startedAt := t2)).None?;
    assert w.store.decisions[..1] == w.store.decisions;
  }

  /** Without that care the spacing fails for every policy with a cooldown and every two events
      closer than it: the late write of the overtaken call makes its failed decision active again. */
  lemma LateWriteResurrects(p: Policy, e1: TriggerEvent, e2: TriggerEvent, t1: Time, t2: Time, maxDepth: nat, resource: Id)
    requires TwoEvents(p, e1, e2, maxDepth) && t2 < t1 + p.cooldown
    ensures var w := Run(NOTHING, maxDepth, Overtaken(p, e1, e2, t1, t2) + [Advance(0, t2, Some(resource))] + [Advance(0, t2, None)]);
      && |w.store.decisions| == 2 && Active(w.store.decisions[0]) && Active(w.store.decisions[1])
      && w.store.decisions[0].policyId == w.store.decisions[1].policyId == p.id
      && w.store.decisions[1].startedAt < w.store.decisions[0].startedAt + p.cooldown
  {
    var steps := Overtaken(p, e1, e2, t1, t2);
    SecondIsAdmitted(p, e1, e2, t1, t2, maxDepth);
    RunExtends(maxDepth, steps, Advance(0, t2, Some(resource)));
    RunExtends(maxDepth, steps + [Advance(0, t2, Some(resource))], Advance(0, t2, None));
  }
}
