/** Over every run of the claim store: a claim only ever loses its activity, unless its scope is
    deleted or one of its entries is rolled back; and every entry was written by somebody allowed to. */
module BrainAuthority {
  import opened Basics
  import opened ChangeAudit
  import opened Brain
  import opened BrainRuns
  import opened BrainEffects

  // ---------------------------------------------------------------- claims only lose their activity

  /** The same claim, or the same claim deactivated. */
  ghost predicate Aged(c: Claim, d: Claim) { d == c || d == c.(active := false, updatedAt := d.updatedAt) }

  /** The step deletes the claim's scope or rolls back an entry about it. */
  ghost predicate Disturbs(b: State, s: Step, c: Claim) {
    match s
    case DeleteScope(scopeRef, p, _) => c.tenant == p.tenant && c.owner == p.id && c.scopeRef == scopeRef
    case RollbackChange(entryId, _, _) => entryId < |b.changes| && b.changes[entryId].payload.subject == c.id
    case _ => false
  }

  lemma AddAges(hashOf: Hash, b: State, input: ClaimInput, p: Principal, id: Id, now: Time, next: State, c: Claim)
    requires Inv(hashOf, b) && Fresh(b, id) && AddIn(hashOf, b, input, p, id, now) == Ok(next) && Held(b.claims, c)
    ensures Find(next.claims, c.id) == Some(c)
  {
    var k := InputKey(input, p);
    var created := Created(input, k, |History(b.claims, k)| + 1, id, now);
    AddingOne(b.claims, k, created);
    StoredAreFound(b.claims, next.claims, created, c);
  }

  lemma RetractAges(hashOf: Hash, b: State, scopeRef: Id, id: Id, p: Principal, owner: Id, now: Time, next: State, c: Claim)
    requires Inv(hashOf, b) && RetractIn(hashOf, b, scopeRef, id, p, owner, now) == Ok(next) && Held(b.claims, c)
    ensures Find(next.claims, c.id).Some? && Aged(c, Find(next.claims, c.id).value)
  {
    var k := Key(p.tenant, owner, scopeRef);
    var i := IndexOf(b.claims[k], id, false);
    var d := b.claims[k][i].(active := false, updatedAt := now);
    RetractionDeactivatesOne(hashOf, b, scopeRef, id, p, owner, now);
    UpdatingOne(b.claims, k, i, d);
    IsHeld(b.claims, k, i);
    assert Held(next.claims, d);
    FindHeld(next.claims, if c.id == id then d else c);
  }

  lemma ReplaceAges(
      hashOf: Hash, b: State, scopeRef: Id, claimIds: seq<Id>, input: ClaimInput, p: Principal, owner: Id, id: Id, now: Time, next: State, c: Claim)
    requires Inv(hashOf, b) && Fresh(b, id) && ReplaceIn(hashOf, b, scopeRef, claimIds, input, p, owner, id, now) == Ok(next) && Held(b.claims, c)
    ensures Find(next.claims, c.id).Some? && Aged(c, Find(next.claims, c.id).value)
  {
    if claimIds == [] {
      AddAges(hashOf, b, input, p, id, now, next, c);
    } else {
      ReplaceRetractsExactly(hashOf, b, scopeRef, claimIds, input, p, owner, id, now, c);
    }
  }

  lemma ImportAges(hashOf: Hash, contentHashOf: seq<Claim> -> Id, b: State, bundle: Bundle, p: Principal, now: Time, next: State, c: Claim)
    requires Inv(hashOf, b) && ImportIn(hashOf, contentHashOf, b, bundle, p, now) == Ok(next) && Held(b.claims, c)
    ensures Find(next.claims, c.id) == Some(c)
  {
    ImportKeepsInv(hashOf, contentHashOf, b, bundle, p, now);
    var taken := ImportTakes(hashOf, contentHashOf, b, bundle, p, now, next);
    assert Held(next.claims, c) by {
      if KeyOf(c) != ScopeOf(bundle) { assert KeyOf(c) in next.claims - {ScopeOf(bundle)}; }
    }
    FindHeld(next.claims, c);
  }

  lemma DeleteAges(hashOf: Hash, b: State, scopeRef: Id, p: Principal, now: Time, next: State, c: Claim)
    requires Inv(hashOf, b) && DeleteScopeIn(hashOf, b, scopeRef, p, now) == Ok(next) && Held(b.claims, c)
    requires !(c.tenant == p.tenant && c.owner == p.id && c.scopeRef == scopeRef)
    ensures Find(next.claims, c.id) == Some(c)
  {
    DeleteScopeKeepsInv(hashOf, b, scopeRef, p, now, next);
    assert Held(next.claims, c);
    FindHeld(next.claims, c);
  }

  lemma RollbackAges(hashOf: Hash, b: State, entryId: nat, p: Principal, now: Time, next: State, c: Claim)
    requires Inv(hashOf, b) && RollbackIn(hashOf, b, entryId, p, now) == Ok(next) && Held(b.claims, c)
    requires !(entryId < |b.changes| && b.changes[entryId].payload.subject == c.id)
    ensures Find(next.claims, c.id) == Some(c)
  {
    RollbackKeepsInv(hashOf, b, entryId, p, now);
    RollbackRestoresOneSubject(hashOf, b, entryId, p, now, c);
    RollbackIsRecorded(hashOf, b, entryId, p, now, next, KeyOf(c));
    assert EntryIndex(b.changes, entryId) == entryId;
    FindHeld(next.claims, c);
  }

  lemma StepAges(hashOf: Hash, contentHashOf: seq<Claim> -> Id, b: State, s: Step, c: Claim)
    requires Inv(hashOf, b) && Held(b.claims, c) && !Disturbs(b, s, c)
    ensures var d := Find(Next(hashOf, contentHashOf, b, s).claims, c.id); d.Some? && Aged(c, d.value)
  {
    FindHeld(b.claims, c);
    var next := Next(hashOf, contentHashOf, b, s);
    match s
    case Add(input, p, id, now) =>
      if Fresh(b, id) && AddIn(hashOf, b, input, p, id, now).Ok? { AddAges(hashOf, b, input, p, id, now, next, c); }
    case RetractClaim(scopeRef, id, p, owner, now) =>
      if RetractIn(hashOf, b, scopeRef, id, p, owner, now).Ok? { RetractAges(hashOf, b, scopeRef, id, p, owner, now, next, c); }
    case Replace(scopeRef, ids, input, p, owner, id, now) =>
      if Fresh(b, id) && ReplaceIn(hashOf, b, scopeRef, ids, input, p, owner, id, now).Ok? {
        ReplaceAges(hashOf, b, scopeRef, ids, input, p, owner, id, now, next, c);
      }
    case Import(bundle, p, now) =>
      if ImportIn(hashOf, contentHashOf, b, bundle, p, now).Ok? { ImportAges(hashOf, contentHashOf, b, bundle, p, now, next, c); }
    case DeleteScope(scopeRef, p, now) =>
      if DeleteScopeIn(hashOf, b, scopeRef, p, now).Ok? { DeleteAges(hashOf, b, scopeRef, p, now, next, c); }
    case RollbackChange(entryId, p, now) =>
      if RollbackIn(hashOf, b, entryId, p, now).Ok? { RollbackAges(hashOf, b, entryId, p, now, next, c); }
    case ChangeGrants(_) =>
  }

  ghost predicate Disturbed(hashOf: Hash, contentHashOf: seq<Claim> -> Id, b: State, steps: seq<Step>, c: Claim) {
    exists m :: 0 <= m < |steps| && Disturbs(Run(hashOf, contentHashOf, b, steps[..m]), steps[m], c)
  }

  lemma DisturbedGrows(hashOf: Hash, contentHashOf: seq<Claim> -> Id, b: State, steps: seq<Step>, c: Claim)
    requires steps != []
    ensures Disturbed(hashOf, contentHashOf, b, steps[..|steps| - 1], c) ==> Disturbed(hashOf, contentHashOf, b, steps, c)
    ensures Disturbs(Run(hashOf, contentHashOf, b, steps[..|steps| - 1]), steps[|steps| - 1], c) ==> Disturbed(hashOf, contentHashOf, b, steps, c)
  {
    var front := steps[..|steps| - 1];
    if Disturbed(hashOf, contentHashOf, b, front, c) {
      var m :| 0 <= m < |front| && Disturbs(Run(hashOf, contentHashOf, b, front[..m]), front[m], c);
      assert front[..m] == steps[..m];
      assert Disturbs(Run(hashOf, contentHashOf, b, steps[..m]), steps[m], c);
    }
  }

  ghost predicate OnlyLostActivity(b: State, c: Claim) {
    var d := Find(b.claims, c.id);
    d.Some? && d.value == c.(active := d.value.active, updatedAt := d.value.updatedAt) && (d.value.active ==> d.value == c)
  }

  lemma LastStepAges(hashOf: Hash, contentHashOf: seq<Claim> -> Id, b: State, s: Step, c: Claim)
    requires Inv(hashOf, b) && OnlyLostActivity(b, c) && !Disturbs(b, s, c)
    ensures OnlyLostActivity(Next(hashOf, contentHashOf, b, s), c)
  {
    StepAges(hashOf, contentHashOf, b, s, Find(b.claims, c.id).value);
  }

  /** Whatever happens to a held claim, it stays held with its content, level, version and place, and
      once inactive it stays so, unless its scope is deleted or an entry about it is rolled back. */
  lemma {:induction false} ClaimsOnlyLoseActivity(hashOf: Hash, contentHashOf: seq<Claim> -> Id, b: State, steps: seq<Step>, c: Claim)
    requires Inv(hashOf, b) && Held(b.claims, c)
    ensures Disturbed(hashOf, contentHashOf, b, steps, c) || OnlyLostActivity(Run(hashOf, contentHashOf, b, steps), c)
  {
    if steps == [] {
      FindHeld(b.claims, c);
    } else {
      var front := steps[..|steps| - 1];
      ClaimsOnlyLoseActivity(hashOf, contentHashOf, b, front, c);
      DisturbedGrows(hashOf, contentHashOf, b, steps, c);
      if !Disturbed(hashOf, contentHashOf, b, steps, c) {
        EveryRunKeepsInv(hashOf, contentHashOf, b, front);
        LastStepAges(hashOf, contentHashOf, Run(hashOf, contentHashOf, b, front), steps[|steps| - 1], c);
      }
    }
  }

  // ---------------------------------------------------------------- every change was allowed

  predicate AtLeast(granted: Level, asked: Level) {
    match asked
    case Public => true
    case Internal => !granted.Public?
    case Confidential => granted.Confidential? || granted.Private?
    case Private => granted.Private?
  }

  /** In their own tenant, the claim's owner may change it, and so may the subject of a grant for
      its scope that names the action and its level, is not revoked and has not run out. */
  ghost predicate MayChange(grants: map<Id, Grant>, p: Principal, c: Claim, action: Action, now: Time) {
    && p.tenant == c.tenant
    && ((p.isOwner && p.id == c.owner)
        || exists id, l ::
          && id in grants && 0 <= l < |grants[id].levels| && AtLeast(grants[id].levels[l], c.level)
          && grants[id].subject == p.id && grants[id].owner == c.owner && grants[id].tenant == c.tenant && grants[id].scopeRef == c.scopeRef
          && action in grants[id].actions && !grants[id].revoked && now < grants[id].expiresAt)
  }

  lemma PermittedMeans(grants: map<Id, Grant>, p: Principal, c: Claim, action: Action, now: Time)
    ensures Permitted(grants, p, KeyOf(c), c.level, action, now) <==> MayChange(grants, p, c, action, now)
  {
    if id :| id in grants && Covers(grants[id], p, KeyOf(c), c.level, action, now) {
      var l :| 0 <= l < |grants[id].levels| && Rank(grants[id].levels[l]) >= Rank(c.level);
      assert AtLeast(grants[id].levels[l], c.level);
    }
    if id, l :|
      && id in grants && 0 <= l < |grants[id].levels| && AtLeast(grants[id].levels[l], c.level)
      && grants[id].subject == p.id && grants[id].owner == c.owner && grants[id].tenant == c.tenant && grants[id].scopeRef == c.scopeRef
      && action in grants[id].actions && !grants[id].revoked && now < grants[id].expiresAt
    {
      assert Rank(grants[id].levels[l]) >= Rank(c.level);
      assert Covers(grants[id], p, KeyOf(c), c.level, action, now);
    }
  }

  /** The log has a snapshot of the subject that belongs to this principal. */
  ghost predicate OwnsASnapshot(log: Log, subject: Id, p: Principal) {
    exists n :: 0 <= n < |log| && log[n].payload.subject == subject
      && ((log[n].payload.before.Some? && log[n].payload.before.value.owner == p.id && log[n].payload.before.value.tenant == p.tenant)
          || (log[n].payload.after.Some? && log[n].payload.after.value.owner == p.id && log[n].payload.after.value.tenant == p.tenant))
  }

  /** The entry names the principal of the step, who may do what it records. */
  ghost predicate Authorized(b: State, p: Principal, now: Time, e: Payload<Claim>) {
    && e.actor == p.id && e.at == now
    && match e.op
       case Create => e.after.Some? && MayChange(b.grants, p, e.after.value, Write, now)
       case Update => e.before.Some? && MayChange(b.grants, p, e.before.value, Retract, now)
       case Delete => e.before.Some? && p.isOwner && e.before.value.owner == p.id && e.before.value.tenant == p.tenant
       case Rollback => p.isOperator || (p.isOwner && OwnsASnapshot(b.changes, e.subject, p))
  }

  ghost predicate NewEntriesAuthorized(b: State, next: State, p: Principal, now: Time) {
    b.changes <= next.changes && forall n :: |b.changes| <= n < |next.changes| ==> Authorized(b, p, now, next.changes[n].payload)
  }

  lemma AddAuthorized(hashOf: Hash, b: State, input: ClaimInput, p: Principal, id: Id, now: Time, next: State)
    requires AddIn(hashOf, b, input, p, id, now) == Ok(next)
    ensures NewEntriesAuthorized(b, next, p, now)
  {
    var k := InputKey(input, p);
    PermittedMeans(b.grants, p, Created(input, k, |History(b.claims, k)| + 1, id, now), Write, now);
    AdditionStoresTheInput(hashOf, b, input, p, id, now);
  }

  lemma RetractAuthorized(hashOf: Hash, b: State, scopeRef: Id, id: Id, p: Principal, owner: Id, now: Time, next: State)
    requires Placed(b.claims) && RetractIn(hashOf, b, scopeRef, id, p, owner, now) == Ok(next)
    ensures NewEntriesAuthorized(b, next, p, now)
  {
    var k := Key(p.tenant, owner, scopeRef);
    var i := IndexOf(b.claims[k], id, false);
    IsHeld(b.claims, k, i);
    PermittedMeans(b.grants, p, b.claims[k][i], Retract, now);
    RetractionDeactivatesOne(hashOf, b, scopeRef, id, p, owner, now);
  }

  lemma TargetAuthorized(b: State, k: Key, ids: seq<Id>, p: Principal, now: Time, next: Log, j: nat)
    requires Placed(b.claims) && k in b.claims && p.tenant == k.tenant && TargetError(b, k, ids, p, now).None? && j < |ids|
    requires TargetEntry(b.changes, next, b.claims[k], ids, j, p.id, now)
    ensures Authorized(b, p, now, next[|b.changes| + j].payload)
  {
    var i := IndexOf(b.claims[k], ids[j], true);
    TargetsAreActive(b, k, ids, p, now, j);
    IsHeld(b.claims, k, i);
    PermittedMeans(b.grants, p, b.claims[k][i], Retract, now);
  }

  lemma TargetsAuthorized(b: State, k: Key, ids: seq<Id>, p: Principal, now: Time, next: State)
    requires Placed(b.claims) && k in b.claims && p.tenant == k.tenant && TargetError(b, k, ids, p, now).None?
    requires b.changes <= next.changes && |next.changes| == |b.changes| + |ids| + 1
    requires forall j :: 0 <= j < |ids| ==> TargetEntry(b.changes, next.changes, b.claims[k], ids, j, p.id, now)
    requires Authorized(b, p, now, next.changes[|next.changes| - 1].payload)
    ensures NewEntriesAuthorized(b, next, p, now)
  {
    forall n | |b.changes| <= n < |next.changes| ensures Authorized(b, p, now, next.changes[n].payload) {
      if n < |b.changes| + |ids| { TargetAuthorized(b, k, ids, p, now, next.changes, n - |b.changes|); }
    }
  }

  lemma ReplaceAuthorized(
      hashOf: Hash, b: State, scopeRef: Id, claimIds: seq<Id>, input: ClaimInput, p: Principal, owner: Id, id: Id, now: Time, next: State)
    requires Placed(b.claims) && ReplaceIn(hashOf, b, scopeRef, claimIds, input, p, owner, id, now) == Ok(next)
    ensures NewEntriesAuthorized(b, next, p, now)
  {
    if claimIds == [] {
      AddAuthorized(hashOf, b, input, p, id, now, next);
    } else {
      var k, ids := Key(p.tenant, owner, scopeRef), Distinct(claimIds);
      ReplaceIsRetireThenStore(hashOf, b, scopeRef, claimIds, input, p, owner, id, now, next);
      var e := CreatedEntry(hashOf, b, scopeRef, claimIds, input, p, owner, id, now, next);
      PermittedMeans(b.grants, p, e.after.value, Write, now);
      ReplacementEntries(hashOf, b, scopeRef, claimIds, input, p, owner, id, now, next);
      TargetsAuthorized(b, k, ids, p, now, next);
    }
  }

  /** The last entry of a replacement creates the new claim. */
  lemma CreatedEntry(
      hashOf: Hash, b: State, scopeRef: Id, claimIds: seq<Id>, input: ClaimInput, p: Principal, owner: Id, id: Id, now: Time, next: State)
      returns (e: Payload<Claim>)
    requires claimIds != [] && ReplaceIn(hashOf, b, scopeRef, claimIds, input, p, owner, id, now) == Ok(next)
    ensures next.changes != [] && e == next.changes[|next.changes| - 1].payload && b.changes <= next.changes
    ensures e.op.Create? && e.actor == p.id && e.at == now && e.after.Some?
    ensures KeyOf(e.after.value) == InputKey(input, p) && e.after.value.level == input.level
    ensures Permitted(b.grants, p, InputKey(input, p), input.level, Write, now)
  {
    var k, ids := Key(p.tenant, owner, scopeRef), Distinct(claimIds);
    ReplaceIsRetireThenStore(hashOf, b, scopeRef, claimIds, input, p, owner, id, now, next);
    EntriesOfTargets(hashOf, b, k, ids, p, now, b.changes);
    e := next.changes[|next.changes| - 1].payload;
  }

  lemma CreationsAuthorized(hashOf: Hash, b: State, taken: seq<Claim>, p: Principal, now: Time, next: State, k: Key)
    requires next.changes == RecordCreations(hashOf, b.changes, taken, p.id, now)
    requires p.isOwner && k.owner == p.id && k.tenant == p.tenant && forall i :: 0 <= i < |taken| ==> KeyOf(taken[i]) == k
    ensures NewEntriesAuthorized(b, next, p, now)
  {
    CreationEntries(hashOf, b.changes, taken, p.id, now);
    forall n | |b.changes| <= n < |next.changes| ensures Authorized(b, p, now, next.changes[n].payload) {
      assert KeyOf(taken[n - |b.changes|]) == k;
    }
  }

  lemma ImportAuthorized(hashOf: Hash, contentHashOf: seq<Claim> -> Id, b: State, bundle: Bundle, p: Principal, now: Time, next: State)
    requires Inv(hashOf, b) && ImportIn(hashOf, contentHashOf, b, bundle, p, now) == Ok(next)
    ensures NewEntriesAuthorized(b, next, p, now)
  {
    var taken := ImportTakes(hashOf, contentHashOf, b, bundle, p, now, next);
    AcceptedAreNew(b, bundle, bundle.claims, p, now);
    CreationsAuthorized(hashOf, b, taken, p, now, next, ScopeOf(bundle));
  }

  lemma DeleteAuthorized(hashOf: Hash, b: State, scopeRef: Id, p: Principal, now: Time, next: State)
    requires Placed(b.claims) && DeleteScopeIn(hashOf, b, scopeRef, p, now) == Ok(next)
    ensures NewEntriesAuthorized(b, next, p, now)
  {
    var k := Key(p.tenant, p.id, scopeRef);
    var had := History(b.claims, k);
    DeletionEntries(hashOf, b.changes, had, p.id, now);
    forall n | |b.changes| <= n < |next.changes| ensures Authorized(b, p, now, next.changes[n].payload) {
      var c := had[n - |b.changes|];
      IsHeld(b.claims, k, n - |b.changes|);
      assert KeyOf(c) == k;
    }
  }

  lemma {:induction false} FirstSnapshotIsThere(log: Log, subject: Id, p: Principal)
    requires FirstSnapshot(log, subject).Some?
    requires FirstSnapshot(log, subject).value.owner == p.id && FirstSnapshot(log, subject).value.tenant == p.tenant
    ensures OwnsASnapshot(log, subject, p)
  {
    var m := |log| - 1;
    if FirstSnapshot(log[..m], subject).Some? {
      FirstSnapshotIsThere(log[..m], subject, p);
      var n :| 0 <= n < m && log[..m][n].payload.subject == subject
        && ((log[..m][n].payload.before.Some? && log[..m][n].payload.before.value.owner == p.id && log[..m][n].payload.before.value.tenant == p.tenant)
            || (log[..m][n].payload.after.Some? && log[..m][n].payload.after.value.owner == p.id && log[..m][n].payload.after.value.tenant == p.tenant));
      assert log[n].payload.subject == subject;
    } else {
      assert log[m].payload.subject == subject;
    }
  }

  lemma RollbackAuthorized(hashOf: Hash, b: State, entryId: nat, p: Principal, now: Time, next: State)
    requires Inv(hashOf, b) && RollbackIn(hashOf, b, entryId, p, now) == Ok(next)
    ensures NewEntriesAuthorized(b, next, p, now)
  {
    RollbackIsRecorded(hashOf, b, entryId, p, now, next, Key("", "", ""));
    assert EntryIndex(b.changes, entryId) == entryId;
    var e := b.changes[entryId].payload;
    if !p.isOperator && e.before.None? && e.after.None? { FirstSnapshotIsThere(b.changes, e.subject, p); }
  }

  /** Who makes the step, and when. */
  function Actor(s: Step): Principal {
    match s case ChangeGrants(_) => Principal("", "", false, false) case _ => s.p
  }

  function At(s: Step): Time { match s case ChangeGrants(_) => 0 case _ => s.now }

  lemma StepAuthorized(hashOf: Hash, contentHashOf: seq<Claim> -> Id, b: State, s: Step)
    requires Inv(hashOf, b)
    ensures NewEntriesAuthorized(b, Next(hashOf, contentHashOf, b, s), Actor(s), At(s))
  {
    var next := Next(hashOf, contentHashOf, b, s);
    match s
    case Add(input, p, id, now) =>
      if Fresh(b, id) && AddIn(hashOf, b, input, p, id, now).Ok? { AddAuthorized(hashOf, b, input, p, id, now, next); }
    case RetractClaim(scopeRef, id, p, owner, now) =>
      if RetractIn(hashOf, b, scopeRef, id, p, owner, now).Ok? { RetractAuthorized(hashOf, b, scopeRef, id, p, owner, now, next); }
    case Replace(scopeRef, ids, input, p, owner, id, now) =>
      if Fresh(b, id) && ReplaceIn(hashOf, b, scopeRef, ids, input, p, owner, id, now).Ok? {
        ReplaceAuthorized(hashOf, b, scopeRef, ids, input, p, owner, id, now, next);
      }
    case Import(bundle, p, now) =>
      if ImportIn(hashOf, contentHashOf, b, bundle, p, now).Ok? { ImportAuthorized(hashOf, contentHashOf, b, bundle, p, now, next); }
    case DeleteScope(scopeRef, p, now) =>
      if DeleteScopeIn(hashOf, b, scopeRef, p, now).Ok? { DeleteAuthorized(hashOf, b, scopeRef, p, now, next); }
    case RollbackChange(entryId, p, now) =>
      if RollbackIn(hashOf, b, entryId, p, now).Ok? { RollbackAuthorized(hashOf, b, entryId, p, now, next); }
    case ChangeGrants(_) =>
  }

  /** The step wrote the n-th entry, and was allowed to. */
  ghost predicate Wrote(before: State, after: State, s: Step, n: nat, e: Entry<Claim>) {
    |before.changes| <= n < |after.changes| && after.changes[n] == e && Authorized(before, Actor(s), At(s), e.payload)
  }

  /** Every entry a run adds was written by one of its steps, whose principal could do what the
      entry records with the grants of that moment. */
  lemma {:induction false} EveryEntryWasAuthorized(hashOf: Hash, contentHashOf: seq<Claim> -> Id, b: State, steps: seq<Step>, n: nat) returns (m: nat)
    requires Inv(hashOf, b) && |b.changes| <= n < |Run(hashOf, contentHashOf, b, steps).changes|
    ensures m < |steps|
    ensures Wrote(Run(hashOf, contentHashOf, b, steps[..m]), Run(hashOf, contentHashOf, b, steps[..m + 1]), steps[m], n,
                  Run(hashOf, contentHashOf, b, steps).changes[n])
  {
    var l := |steps| - 1;
    var front := Run(hashOf, contentHashOf, b, steps[..l]);
    EveryRunKeepsInv(hashOf, contentHashOf, b, steps[..l]);
    StepAuthorized(hashOf, contentHashOf, front, steps[l]);
    if n < |front.changes| {
      m := EveryEntryWasAuthorized(hashOf, contentHashOf, b, steps[..l], n);
      assert steps[..l][..m] == steps[..m] && steps[..l][..m + 1] == steps[..m + 1];
    } else {
      m := l;
      assert steps[..l + 1] == steps;
    }
  }
}
