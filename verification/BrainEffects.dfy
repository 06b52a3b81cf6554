/** What each operation of the claim store does to the claims and to the change log, spelled out
    on the stored claims themselves. */
module BrainEffects {
  import opened Basics
  import opened ChangeAudit
  import opened Brain
  import opened BrainRuns

  // ---------------------------------------------------------------- one entry

  /** The log grew by one entry, the n-th, about this claim. */
  ghost predicate Recorded(log: Log, next: Log, n: nat, subject: Id, before: Option<Claim>, after: Option<Claim>, actor: Id, now: Time) {
    && |log| <= n < |next| && log <= next
    && var e := next[n].payload;
      && e.subject == subject && e.before == before && e.after == after && e.actor == actor && e.at == now
      && (e.op.Create? <==> before.None?) && (e.op.Delete? <==> after.None?) && !e.op.Rollback?
  }

  /** The first claim with this id, among the active ones when `onlyActive`. */
  ghost predicate FirstAt(history: seq<Claim>, i: nat, id: Id, onlyActive: bool) {
    && i < |history| && history[i].id == id && (onlyActive ==> history[i].active)
    && forall j :: 0 <= j < i ==> history[j].id != id || (onlyActive && !history[j].active)
  }

  // ---------------------------------------------------------------- add

  /** A stored claim is the last of its scope, active, with the text it was given and the next
      version; nothing else changes and one entry says so. */
  lemma AdditionStoresTheInput(hashOf: Hash, b: State, input: ClaimInput, p: Principal, id: Id, now: Time)
    ensures var answer := AddIn(hashOf, b, input, p, id, now);
      answer.Ok? ==>
        var next, tenant := answer.value, (match input.tenant case Some(t) => t case None => p.tenant);
        var k := Key(tenant, input.owner, input.scopeRef);
        var had := if k in b.claims then b.claims[k] else [];
        var c := Claim(id, tenant, input.owner, input.scopeRef, input.level, input.content, |had| + 1, true, now, now);
        && next.claims == b.claims[k := had + [c]] && next.grants == b.grants
        && |next.changes| == |b.changes| + 1 && Recorded(b.changes, next.changes, |b.changes|, id, None, Some(c), p.id, now)
  {}

  // ---------------------------------------------------------------- retract

  /** A retraction deactivates the first claim of that id in the scope, keeps everything else of it
      and every other claim, and records the active snapshot before and the inactive one after. */
  lemma RetractionDeactivatesOne(hashOf: Hash, b: State, scopeRef: Id, id: Id, p: Principal, owner: Id, now: Time)
    ensures var answer := RetractIn(hashOf, b, scopeRef, id, p, owner, now);
      answer.Ok? ==>
        var next, k := answer.value, Key(p.tenant, owner, scopeRef);
        && k in b.claims && next.grants == b.grants && |next.changes| == |b.changes| + 1
        && exists i: nat {:trigger FirstAt(b.claims[k], i, id, false)} ::
          && FirstAt(b.claims[k], i, id, false)
          && var c := b.claims[k][i];
            && next.claims == b.claims[k := b.claims[k][i := c.(active := false, updatedAt := now)]]
            && Recorded(b.changes, next.changes, |b.changes|, id, Some(c), Some(c.(active := false, updatedAt := now)), p.id, now)
  {
    var answer, k := RetractIn(hashOf, b, scopeRef, id, p, owner, now), Key(p.tenant, owner, scopeRef);
    if answer.Ok? {
      assert FirstAt(b.claims[k], IndexOf(b.claims[k], id, false), id, false);
    }
  }

  // ---------------------------------------------------------------- replace

  /** The entry of the j-th target is about the first active claim of that id. */
  ghost predicate TargetEntry(log: Log, next: Log, history: seq<Claim>, ids: seq<Id>, j: nat, actor: Id, now: Time)
    requires j < |ids|
  {
    var i := IndexOf(history, ids[j], true);
    i < |history|
    && Recorded(log, next, |log| + j, ids[j], Some(history[i]), Some(history[i].(active := false, updatedAt := now)), actor, now)
  }

  lemma RecordingOne(hashOf: Hash, log: Log, c: Claim, actor: Id, now: Time)
    ensures var next := Record(hashOf, log, Some(c), Some(Retired(c, now)), actor, "brain.retract", now);
      |next| == |log| + 1 && Recorded(log, next, |log|, c.id, Some(c), Some(c.(active := false, updatedAt := now)), actor, now)
  {}

  lemma {:induction false} EntriesOfTargets(hashOf: Hash, b: State, k: Key, ids: seq<Id>, p: Principal, now: Time, log: Log)
    requires k in b.claims && TargetError(b, k, ids, p, now).None?
    ensures |RecordEach(hashOf, log, b.claims[k], ids, p.id, now)| == |log| + |ids|
    ensures log <= RecordEach(hashOf, log, b.claims[k], ids, p.id, now)
    ensures forall j :: 0 <= j < |ids| ==> TargetEntry(log, RecordEach(hashOf, log, b.claims[k], ids, p.id, now), b.claims[k], ids, j, p.id, now)
  {
    if ids != [] {
      var n, history := |ids| - 1, b.claims[k];
      var front := RecordEach(hashOf, log, history, ids[..n], p.id, now);
      EntriesOfTargets(hashOf, b, k, ids[..n], p, now, log);
      RecordingOne(hashOf, front, history[IndexOf(history, ids[n], true)], p.id, now);
      forall j | 0 <= j < n ensures TargetEntry(log, RecordEach(hashOf, log, history, ids, p.id, now), history, ids, j, p.id, now) {
        assert TargetEntry(log, front, history, ids[..n], j, p.id, now);
      }
    }
  }

  /** Exactly the named active claims of the scope are deactivated, in place and with nothing else
      of them changed. */
  lemma ReplacementDeactivatesTheNamed(
      hashOf: Hash, b: State, scopeRef: Id, claimIds: seq<Id>, input: ClaimInput, p: Principal, owner: Id, id: Id, now: Time, next: State, j: nat)
    requires Inv(hashOf, b) && claimIds != [] && ReplaceIn(hashOf, b, scopeRef, claimIds, input, p, owner, id, now) == Ok(next)
    ensures var k := Key(p.tenant, owner, scopeRef);
      && k in b.claims && k in next.claims && |b.claims[k]| <= |next.claims[k]|
      && (j < |b.claims[k]| ==>
            var c := b.claims[k][j];
            next.claims[k][j] == if c.id in claimIds && c.active then c.(active := false, updatedAt := now) else c)
  {
    var k := Key(p.tenant, owner, scopeRef);
    ReplaceIsRetireThenStore(hashOf, b, scopeRef, claimIds, input, p, owner, id, now, next);
    if j < |b.claims[k]| { RetireEachAt(b.claims[k], Distinct(claimIds), now, j); }
  }

  /** The scope of a claim stored in a scope of its own or another, and every other scope. */
  lemma StoredLast(claims: Claims, k: Key, retired: seq<Claim>, target: Key, c: Claim, next: Claims, other: Key)
    requires |retired| == |History(claims, k)|
    requires var mid := claims[k := retired]; next == mid[target := History(mid, target) + [c]]
    ensures var before, after := History(claims, other), History(next, other);
      if other == target
      then |after| == |before| + 1 && after[|before|] == c && (other != k ==> after[..|before|] == before)
      else |after| == |before| && (other != k ==> after == before)
  {}

  /** Behind the retired claims the new one is the last of its scope, active, with the text it was
      given and the next version; the other scopes and the grants are as they were. */
  lemma ReplacementStoresTheInput(
      hashOf: Hash, b: State, scopeRef: Id, claimIds: seq<Id>, input: ClaimInput, p: Principal, owner: Id, id: Id, now: Time, next: State, other: Key)
    requires claimIds != [] && ReplaceIn(hashOf, b, scopeRef, claimIds, input, p, owner, id, now) == Ok(next)
    ensures var k, tenant := Key(p.tenant, owner, scopeRef), (match input.tenant case Some(t) => t case None => p.tenant);
      var target, before, after := Key(tenant, input.owner, input.scopeRef), History(b.claims, other), History(next.claims, other);
      && next.grants == b.grants
      && if other == target
         then && |after| == |before| + 1 && (other != k ==> after[..|before|] == before)
              && after[|before|] == Claim(id, tenant, input.owner, input.scopeRef, input.level, input.content, |before| + 1, true, now, now)
         else |after| == |before| && (other != k ==> after == before)
  {
    var k, target, ids := Key(p.tenant, owner, scopeRef), InputKey(input, p), Distinct(claimIds);
    ReplaceIsRetireThenStore(hashOf, b, scopeRef, claimIds, input, p, owner, id, now, next);
    var mid := AllRetired(hashOf, b, k, ids, p.id, now);
    var c := Created(input, target, |History(mid.claims, target)| + 1, id, now);
    StoredLast(b.claims, k, RetireEach(b.claims[k], ids, now), target, c, next.claims, other);
  }

  lemma ReplacementEntries(
      hashOf: Hash, b: State, scopeRef: Id, claimIds: seq<Id>, input: ClaimInput, p: Principal, owner: Id, id: Id, now: Time, next: State)
    requires claimIds != [] && ReplaceIn(hashOf, b, scopeRef, claimIds, input, p, owner, id, now) == Ok(next)
    ensures var k, ids := Key(p.tenant, owner, scopeRef), Distinct(claimIds);
      && k in b.claims && NoDuplicates(ids) && (forall x :: x in ids <==> x in claimIds)
      && |next.changes| == |b.changes| + |ids| + 1 && next.changes[|next.changes| - 1].payload.subject == id
      && forall j :: 0 <= j < |ids| ==> TargetEntry(b.changes, next.changes, b.claims[k], ids, j, p.id, now)
  {
    var k, ids := Key(p.tenant, owner, scopeRef), Distinct(claimIds);
    ReplaceIsRetireThenStore(hashOf, b, scopeRef, claimIds, input, p, owner, id, now, next);
    EntriesOfTargets(hashOf, b, k, ids, p, now, b.changes);
    var log := RecordEach(hashOf, b.changes, b.claims[k], ids, p.id, now);
    forall j | 0 <= j < |ids| ensures TargetEntry(b.changes, next.changes, b.claims[k], ids, j, p.id, now) {
      assert TargetEntry(b.changes, log, b.claims[k], ids, j, p.id, now);
      assert next.changes[..|log|] == log;
    }
  }

  lemma LastTargetEntry(log: Log, next: Log, claims: Claims, k: Key, ids: seq<Id>, x: Id, actor: Id, now: Time) returns (n: nat)
    requires Placed(claims) && k in claims && NoDuplicates(ids) && x in ids
    requires |next| == |log| + |ids| + 1 && next[|next| - 1].payload.subject != x
    requires forall j :: 0 <= j < |ids| ==> TargetEntry(log, next, claims[k], ids, j, actor, now)
    ensures n < |next| && next[n].payload.before.Some? && forall m :: n < m < |next| ==> next[m].payload.subject != x
    ensures var c := next[n].payload.before.value;
      c.active && c.id == x && Held(claims, c) && Recorded(log, next, n, x, Some(c), Some(c.(active := false, updatedAt := now)), actor, now)
  {
    var j :| 0 <= j < |ids| && ids[j] == x;
    n := |log| + j;
    assert TargetEntry(log, next, claims[k], ids, j, actor, now);
    IsHeld(claims, k, IndexOf(claims[k], x, true));
    forall m | n < m < |next| ensures next[m].payload.subject != x {
      if m < |log| + |ids| { assert TargetEntry(log, next, claims[k], ids, m - |log|, actor, now); }
    }
  }

  lemma IsHeld(claims: Claims, k: Key, i: nat)
    requires k in claims && i < |claims[k]| && Placed(claims)
    ensures Held(claims, claims[k][i])
  {
    assert claims[k][i] in claims[k];
  }

  lemma NewIdIsNoTarget(b: State, k: Key, ids: seq<Id>, x: Id, id: Id, p: Principal, now: Time)
    requires Placed(b.claims) && Fresh(b, id) && k in b.claims && x in ids && TargetError(b, k, ids, p, now).None?
    ensures x != id
  {
    var j :| 0 <= j < |ids| && ids[j] == x;
    TargetsAreActive(b, k, ids, p, now, j);
    IsHeld(b.claims, k, IndexOf(b.claims[k], x, true));
  }

  /** The last entry about a named claim goes from the active claim to the inactive one. */
  lemma ReplacementIsRecorded(
      hashOf: Hash, b: State, scopeRef: Id, claimIds: seq<Id>, input: ClaimInput, p: Principal, owner: Id, id: Id, now: Time, next: State, x: Id)
      returns (n: nat)
    requires Placed(b.claims) && Fresh(b, id) && x in claimIds
    requires ReplaceIn(hashOf, b, scopeRef, claimIds, input, p, owner, id, now) == Ok(next)
    ensures n < |next.changes| && next.changes[n].payload.before.Some? && forall m :: n < m < |next.changes| ==> next.changes[m].payload.subject != x
    ensures var c := next.changes[n].payload.before.value;
      && c.active && c.id == x && Held(b.claims, c)
      && Recorded(b.changes, next.changes, n, x, Some(c), Some(c.(active := false, updatedAt := now)), p.id, now)
  {
    var k, ids := Key(p.tenant, owner, scopeRef), Distinct(claimIds);
    ReplaceIsRetireThenStore(hashOf, b, scopeRef, claimIds, input, p, owner, id, now, next);
    ReplacementEntries(hashOf, b, scopeRef, claimIds, input, p, owner, id, now, next);
    NewIdIsNoTarget(b, k, ids, x, id, p, now);
    n := LastTargetEntry(b.changes, next.changes, b.claims, k, ids, x, p.id, now);
  }

  // ---------------------------------------------------------------- import

  /** The m-th claim of the bundle is the first of its id there, and nothing held has that id. */
  ghost predicate FirstUnknown(b: State, incoming: seq<Claim>, m: nat) {
    && m < |incoming| && (forall c :: Held(b.claims, c) ==> c.id != incoming[m].id)
    && forall l :: 0 <= l < m ==> incoming[l].id != incoming[m].id
  }

  lemma FirstUnknownGrows(b: State, incoming: seq<Claim>, n: nat, m: nat)
    requires n <= |incoming| && FirstUnknown(b, incoming[..n], m)
    ensures FirstUnknown(b, incoming, m)
  {
    assert forall l :: 0 <= l <= m ==> incoming[..n][l] == incoming[l];
  }

  lemma {:induction false} TakenAreFirstUnknown(b: State, bundle: Bundle, incoming: seq<Claim>, p: Principal, now: Time, i: nat) returns (m: nat)
    requires AcceptedFrom(b, bundle, incoming, p, now).Ok? && i < |AcceptedFrom(b, bundle, incoming, p, now).value|
    ensures FirstUnknown(b, incoming, m)
    ensures AcceptedFrom(b, bundle, incoming, p, now).value[i]
         == incoming[m].(version := |History(b.claims, ScopeOf(bundle))| + 1 + i, updatedAt := now)
  {
    var n := |incoming| - 1;
    if i < |AcceptedFrom(b, bundle, incoming[..n], p, now).value| {
      m := TakenAreFirstUnknown(b, bundle, incoming[..n], p, now, i);
      FirstUnknownGrows(b, incoming, n, m);
    } else {
      m := n;
      LastTakenIsUnknown(b, bundle, incoming, p, now);
    }
  }

  lemma LastTakenIsUnknown(b: State, bundle: Bundle, incoming: seq<Claim>, p: Principal, now: Time)
    requires incoming != [] && AcceptedFrom(b, bundle, incoming, p, now).Ok?
    requires AcceptedFrom(b, bundle, incoming, p, now) != AcceptedFrom(b, bundle, incoming[..|incoming| - 1], p, now)
    ensures FirstUnknown(b, incoming, |incoming| - 1)
  {
    var n := |incoming| - 1;
    forall l | 0 <= l < n ensures incoming[l].id != incoming[n].id { SeenIsAmong(b, bundle, incoming[..n], p, now, l); }
  }

  /** What an import has seen is held already or taken. */
  lemma {:induction false} SeenIsAmong(b: State, bundle: Bundle, incoming: seq<Claim>, p: Principal, now: Time, l: nat)
    requires AcceptedFrom(b, bundle, incoming, p, now).Ok? && l < |incoming|
    ensures Among(AcceptedFrom(b, bundle, incoming, p, now).value, incoming[l].id).Some? || Find(b.claims, incoming[l].id).Some?
  {
    var n := |incoming| - 1;
    var taken := AcceptedFrom(b, bundle, incoming, p, now).value;
    if l < n {
      SeenIsAmong(b, bundle, incoming[..n], p, now, l);
      var front := AcceptedFrom(b, bundle, incoming[..n], p, now).value;
      if Among(front, incoming[l].id).Some? { AmongGrows(front, taken, incoming[l].id); }
    } else if taken != AcceptedFrom(b, bundle, incoming[..n], p, now).value {
      assert taken[|taken| - 1].id == incoming[l].id;
    }
  }

  lemma AmongGrows(front: seq<Claim>, taken: seq<Claim>, id: Id)
    requires front <= taken && Among(front, id).Some?
    ensures Among(taken, id).Some?
  {
    assert taken[IndexOf(front, id, false)].id == id;
  }

  lemma {:induction false} CreationEntries(hashOf: Hash, log: Log, created: seq<Claim>, actor: Id, now: Time)
    ensures |RecordCreations(hashOf, log, created, actor, now)| == |log| + |created|
    ensures log <= RecordCreations(hashOf, log, created, actor, now)
    ensures forall i {:trigger created[i]} :: 0 <= i < |created| ==>
      Recorded(log, RecordCreations(hashOf, log, created, actor, now), |log| + i, created[i].id, None, Some(created[i]), actor, now)
  {
    if created != [] {
      var n := |created| - 1;
      var front := RecordCreations(hashOf, log, created[..n], actor, now);
      CreationEntries(hashOf, log, created[..n], actor, now);
      forall i | 0 <= i < n
        ensures Recorded(log, RecordCreations(hashOf, log, created, actor, now), |log| + i, created[i].id, None, Some(created[i]), actor, now)
      {
        assert created[..n][i] == created[i];
      }
    }
  }

  /** What an import takes, and that this and its entries are all that is added. */
  lemma ImportTakes(hashOf: Hash, contentHashOf: seq<Claim> -> Id, b: State, bundle: Bundle, p: Principal, now: Time, next: State) returns (taken: seq<Claim>)
    requires ImportIn(hashOf, contentHashOf, b, bundle, p, now) == Ok(next)
    ensures AcceptedFrom(b, bundle, bundle.claims, p, now) == Ok(taken)
    ensures p.isOwner && p.id == bundle.owner && p.tenant == bundle.tenant && bundle.contentHash == contentHashOf(bundle.claims)
    ensures var k := Key(bundle.tenant, bundle.owner, bundle.scopeRef);
      var had, after := History(b.claims, k), History(next.claims, k);
      && next.claims - {k} == b.claims - {k} && next.grants == b.grants && after == had + taken
      && next.changes == RecordCreations(hashOf, b.changes, taken, p.id, now)
  {
    taken := AcceptedFrom(b, bundle, bundle.claims, p, now).value;
  }

  lemma AppendedAt(had: seq<Claim>, taken: seq<Claim>, after: seq<Claim>, i: nat)
    requires after == had + taken && |had| <= i < |after|
    ensures after[i] == taken[i - |had|]
  {}

  /** An import appends to the bundle's scope the first claim of every id that was not held,
      renumbered after what was there; every other scope and the grants stay. */
  lemma ImportAppendsTheUnknown(
      hashOf: Hash, contentHashOf: seq<Claim> -> Id, b: State, bundle: Bundle, p: Principal, now: Time, next: State, i: nat) returns (m: nat)
    requires ImportIn(hashOf, contentHashOf, b, bundle, p, now) == Ok(next)
    ensures p.isOwner && p.id == bundle.owner && p.tenant == bundle.tenant && bundle.contentHash == contentHashOf(bundle.claims)
    ensures var k := Key(bundle.tenant, bundle.owner, bundle.scopeRef);
      var had, after := History(b.claims, k), History(next.claims, k);
      && next.claims - {k} == b.claims - {k} && next.grants == b.grants && had <= after
      && (|had| <= i < |after| ==>
            FirstUnknown(b, bundle.claims, m) && after[i] == bundle.claims[m].(version := i + 1, updatedAt := now))
  {
    var taken := ImportTakes(hashOf, contentHashOf, b, bundle, p, now, next);
    var had, after := History(b.claims, ScopeOf(bundle)), History(next.claims, ScopeOf(bundle));
    m := 0;
    if |had| <= i < |after| {
      AppendedAt(had, taken, after, i);
      m := TakenAreFirstUnknown(b, bundle, bundle.claims, p, now, i - |had|);
    }
  }

  /** Each appended claim has its entry, in order, and there are no others. */
  lemma ImportIsRecorded(hashOf: Hash, contentHashOf: seq<Claim> -> Id, b: State, bundle: Bundle, p: Principal, now: Time, next: State)
      returns (added: seq<Claim>)
    requires ImportIn(hashOf, contentHashOf, b, bundle, p, now) == Ok(next)
    ensures var k := Key(bundle.tenant, bundle.owner, bundle.scopeRef); History(next.claims, k) == History(b.claims, k) + added
    ensures |next.changes| == |b.changes| + |added|
    ensures forall i {:trigger added[i]} :: 0 <= i < |added| ==>
      Recorded(b.changes, next.changes, |b.changes| + i, added[i].id, None, Some(added[i]), p.id, now)
  {
    added := ImportTakes(hashOf, contentHashOf, b, bundle, p, now, next);
    CreationEntries(hashOf, b.changes, added, p.id, now);
  }

  /** Afterwards every claim of the bundle is held, as it is or with another number and update time. */
  lemma ImportHoldsTheBundle(hashOf: Hash, contentHashOf: seq<Claim> -> Id, b: State, bundle: Bundle, p: Principal, now: Time, m: nat)
      returns (d: Claim)
    requires ImportIn(hashOf, contentHashOf, b, bundle, p, now).Ok? && m < |bundle.claims|
    ensures Held(ImportIn(hashOf, contentHashOf, b, bundle, p, now).value.claims, d)
    ensures var c := bundle.claims[m];
      && c.tenant == bundle.tenant && c.owner == bundle.owner && c.scopeRef == bundle.scopeRef
      && d.(version := c.version, updatedAt := c.updatedAt) == c
  {
    d := ImportedIsHeld(hashOf, contentHashOf, b, bundle, p, now, m);
    var c := bundle.claims[m];
    assert d != c ==> Stable(d).(version := c.version, updatedAt := c.updatedAt) == Stable(c).(version := c.version, updatedAt := c.updatedAt);
  }

  // ---------------------------------------------------------------- delete

  lemma {:induction false} DeletionEntries(hashOf: Hash, log: Log, deleted: seq<Claim>, actor: Id, now: Time)
    ensures |RecordDeletions(hashOf, log, deleted, actor, now)| == |log| + |deleted|
    ensures log <= RecordDeletions(hashOf, log, deleted, actor, now)
    ensures forall i {:trigger deleted[i]} :: 0 <= i < |deleted| ==>
      Recorded(log, RecordDeletions(hashOf, log, deleted, actor, now), |log| + i, deleted[i].id, Some(deleted[i]), None, actor, now)
  {
    if deleted != [] {
      var n := |deleted| - 1;
      var front := RecordDeletions(hashOf, log, deleted[..n], actor, now);
      DeletionEntries(hashOf, log, deleted[..n], actor, now);
      forall i | 0 <= i < n
        ensures Recorded(log, RecordDeletions(hashOf, log, deleted, actor, now), |log| + i, deleted[i].id, Some(deleted[i]), None, actor, now)
      {
        assert deleted[..n][i] == deleted[i];
      }
    }
  }

  /** Deleting a scope takes its claims, each with an entry, and exactly its owner's grants for it. */
  lemma DeletionTakesTheScope(hashOf: Hash, b: State, scopeRef: Id, p: Principal, now: Time, next: State)
    requires DeleteScopeIn(hashOf, b, scopeRef, p, now) == Ok(next)
    ensures p.isOwner
    ensures var k := Key(p.tenant, p.id, scopeRef);
      var had := if k in b.claims then b.claims[k] else [];
      && next.claims == b.claims - {k} && |next.changes| == |b.changes| + |had|
      && (forall i {:trigger had[i]} :: 0 <= i < |had| ==>
            Recorded(b.changes, next.changes, |b.changes| + i, had[i].id, Some(had[i]), None, p.id, now))
      && (forall g {:trigger g in next.grants} ::
            g in next.grants <==>
              g in b.grants && !(b.grants[g].scopeRef == scopeRef && b.grants[g].owner == p.id && b.grants[g].tenant == p.tenant))
      && (forall g :: g in next.grants ==> next.grants[g] == b.grants[g])
  {
    var k := Key(p.tenant, p.id, scopeRef);
    DeletionEntries(hashOf, b.changes, History(b.claims, k), p.id, now);
  }

  // ---------------------------------------------------------------- rollback

  lemma {:induction false} WithoutKeepsOthers(history: seq<Claim>, id: Id)
    ensures (forall c :: c in history ==> c.id != id) ==> Without(history, id) == history
  {
    if history != [] {
      var n := |history| - 1;
      assert history == history[..n] + [history[n]];
      WithoutKeepsOthers(history[..n], id);
    }
  }

  /** A rollback is one entry about the subject of the entry it undoes, ending where that began; the
      scope it restores comes out in version order, and a scope without the subject stays as it is. */
  lemma RollbackIsRecorded(hashOf: Hash, b: State, entryId: nat, p: Principal, now: Time, next: State, k: Key)
    requires Inv(hashOf, b) && RollbackIn(hashOf, b, entryId, p, now) == Ok(next)
    ensures entryId < |b.changes| && |next.changes| == |b.changes| + 1 && b.changes <= next.changes && next.grants == b.grants
    ensures var undone, e := b.changes[entryId].payload, next.changes[|b.changes|].payload;
      && e.op.Rollback? && e.subject == undone.subject && e.actor == p.id && e.at == now
      && e.after == undone.before && e.before == SnapshotOf(Replay(b.changes), undone.subject)
      && (undone.before.Some? && k == KeyOf(undone.before.value) ==>
            && k in next.claims
            && forall i, j :: 0 <= i < j < |next.claims[k]| ==> next.claims[k][i].version <= next.claims[k][j].version)
      && (k in b.claims && (forall c :: c in b.claims[k] ==> c.id != undone.subject) && (undone.before.Some? ==> k != KeyOf(undone.before.value)) ==>
            k in next.claims && next.claims[k] == b.claims[k])
  {
    assert EntryIndex(b.changes, entryId) == entryId;
    var e := b.changes[entryId].payload;
    FindIsSnapshot(b.claims, Replay(b.changes), e.subject);
    if k in b.claims { WithoutKeepsOthers(b.claims[k], e.subject); }
    if e.before.Some? {
      var wiped := Wiped(b.claims, e.subject);
      SortMeans(History(wiped, KeyOf(e.before.value)) + [e.before.value]);
    }
  }
}
