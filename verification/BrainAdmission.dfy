/** When each operation of the claim store is taken: exactly under which conditions it is not
    refused, said over the stored claims, the grants and the caller. */
module BrainAdmission {
  import opened Basics
  import opened ChangeAudit
  import opened Brain
  import opened BrainRuns
  import opened BrainEffects
  import opened BrainAuthority

  /** The caller may change a claim of this scope and level. */
  ghost predicate MayTouch(grants: map<Id, Grant>, p: Principal, k: Key, level: Level, action: Action, now: Time) {
    MayChange(grants, p, Claim("", k.tenant, k.owner, k.scopeRef, level, "", 0, true, 0, 0), action, now)
  }

  lemma TouchingMeans(grants: map<Id, Grant>, p: Principal, k: Key, level: Level, action: Action, now: Time)
    ensures Permitted(grants, p, k, level, action, now) <==> MayTouch(grants, p, k, level, action, now)
  {
    PermittedMeans(grants, p, Claim("", k.tenant, k.owner, k.scopeRef, level, "", 0, true, 0, 0), action, now);
  }

  lemma FirstIsIndex(history: seq<Claim>, i: nat, id: Id, onlyActive: bool)
    ensures FirstAt(history, i, id, onlyActive) <==> i < |history| && i == IndexOf(history, id, onlyActive)
  {
    var k := IndexOf(history, id, onlyActive);
    if FirstAt(history, i, id, onlyActive) { assert k <= i && !(k < i); }
  }

  /** A claim is added exactly for a caller that may write to its scope at its level. */
  lemma AddedExactly(hashOf: Hash, b: State, input: ClaimInput, p: Principal, id: Id, now: Time)
    ensures var k := Key(match input.tenant case Some(t) => t case None => p.tenant, input.owner, input.scopeRef);
      AddIn(hashOf, b, input, p, id, now).Ok? <==> MayTouch(b.grants, p, k, input.level, Write, now)
  {
    TouchingMeans(b.grants, p, InputKey(input, p), input.level, Write, now);
  }

  /** A retraction is taken exactly when the scope has a claim of that id and the caller may retract
      the first of them. One that names nothing is told so only to a caller that may retract anything. */
  lemma RetractedExactly(hashOf: Hash, b: State, scopeRef: Id, id: Id, p: Principal, owner: Id, now: Time)
    ensures var answer, k := RetractIn(hashOf, b, scopeRef, id, p, owner, now), Key(p.tenant, owner, scopeRef);
      var history := if k in b.claims then b.claims[k] else [];
      && (answer.Ok? <==> exists i: nat :: FirstAt(history, i, id, false) && MayTouch(b.grants, p, k, history[i].level, Retract, now))
      && (answer == Err(ClaimNotFound) <==>
            (forall i :: 0 <= i < |history| ==> history[i].id != id) && MayTouch(b.grants, p, k, Private, Retract, now))
  {
    var k := Key(p.tenant, owner, scopeRef);
    var history := if k in b.claims then b.claims[k] else [];
    var i := IndexOf(history, id, false);
    TouchingMeans(b.grants, p, k, if i < |history| then history[i].level else Private, Retract, now);
    if i < |history| {
      assert FirstAt(history, i, id, false);
      forall j: nat | FirstAt(history, j, id, false) ensures j == i {}
    }
  }

  /** The caller may retract the first active claim of this id, and there is one. */
  ghost predicate Retractable(b: State, k: Key, x: Id, p: Principal, now: Time) {
    var history := if k in b.claims then b.claims[k] else [];
    exists i: nat :: FirstAt(history, i, x, true) && MayTouch(b.grants, p, k, history[i].level, Retract, now)
  }

  lemma TargetIsRetractable(b: State, k: Key, x: Id, p: Principal, now: Time)
    ensures var history := History(b.claims, k); var i := IndexOf(history, x, true);
      Retractable(b, k, x, p, now) <==> i < |history| && Permitted(b.grants, p, k, history[i].level, Retract, now)
  {
    var history := History(b.claims, k);
    var i := IndexOf(history, x, true);
    if i < |history| {
      TouchingMeans(b.grants, p, k, history[i].level, Retract, now);
      FirstIsIndex(history, i, x, true);
      assert MayTouch(b.grants, p, k, history[i].level, Retract, now) ==> Retractable(b, k, x, p, now);
    }
    if Retractable(b, k, x, p, now) {
      var j: nat :| FirstAt(history, j, x, true) && MayTouch(b.grants, p, k, history[j].level, Retract, now);
      FirstIsIndex(history, j, x, true);
    }
  }

  ghost predicate AllRetractable(b: State, k: Key, ids: seq<Id>, p: Principal, now: Time) {
    forall x :: x in ids ==> Retractable(b, k, x, p, now)
  }

  lemma OneMoreTarget(b: State, k: Key, front: seq<Id>, x: Id, p: Principal, now: Time)
    ensures AllRetractable(b, k, front + [x], p, now) <==> AllRetractable(b, k, front, p, now) && Retractable(b, k, x, p, now)
  {
    assert forall y :: y in front + [x] <==> y in front || y == x;
  }

  lemma {:induction false} TargetsAreRetractable(b: State, k: Key, ids: seq<Id>, p: Principal, now: Time)
    ensures TargetError(b, k, ids, p, now).None? <==> AllRetractable(b, k, ids, p, now)
  {
    if ids != [] {
      var n := |ids| - 1;
      TargetsAreRetractable(b, k, ids[..n], p, now);
      TargetIsRetractable(b, k, ids[n], p, now);
      OneMoreTarget(b, k, ids[..n], ids[n], p, now);
      assert ids == ids[..n] + [ids[n]];
    }
  }

  /** A replacement is taken exactly when the caller may write the new claim and may retract every
      claim named, each of them active in the scope. */
  lemma ReplacedExactly(hashOf: Hash, b: State, scopeRef: Id, claimIds: seq<Id>, input: ClaimInput, p: Principal, owner: Id, id: Id, now: Time)
    ensures var k, target := Key(p.tenant, owner, scopeRef), Key(match input.tenant case Some(t) => t case None => p.tenant, input.owner, input.scopeRef);
      ReplaceIn(hashOf, b, scopeRef, claimIds, input, p, owner, id, now).Ok? <==>
        && MayTouch(b.grants, p, target, input.level, Write, now)
        && forall x :: x in claimIds ==> Retractable(b, k, x, p, now)
  {
    TouchingMeans(b.grants, p, InputKey(input, p), input.level, Write, now);
    DistinctKeepsMembers(claimIds);
    TargetsAreRetractable(b, Key(p.tenant, owner, scopeRef), Distinct(claimIds), p, now);
  }

  // ---------------------------------------------------------------- import

  /** The same claim but for its version and its last update. */
  predicate SameButRenumbered(c: Claim, d: Claim) { d == c.(version := d.version, updatedAt := d.updatedAt) }

  /** The m-th claim of a bundle lies in its scope, agrees with every claim of its id that is held or
      comes earlier, and may be written by the caller when it is the first of them. */
  ghost predicate Importable(b: State, bundle: Bundle, incoming: seq<Claim>, m: nat, p: Principal, now: Time)
    requires m < |incoming|
  {
    var c := incoming[m];
    && c.tenant == bundle.tenant && c.owner == bundle.owner && c.scopeRef == bundle.scopeRef
    && (forall d :: Held(b.claims, d) && d.id == c.id ==> SameButRenumbered(c, d))
    && (forall l :: 0 <= l < m && incoming[l].id == c.id ==> SameButRenumbered(c, incoming[l]))
    && (FirstUnknown(b, incoming, m) ==> MayTouch(b.grants, p, KeyOf(c), c.level, Write, now))
  }

  /** What was taken of an id agrees with every claim of that id seen so far. */
  lemma TakenAgrees(b: State, bundle: Bundle, incoming: seq<Claim>, p: Principal, now: Time, id: Id)
    requires AcceptedFrom(b, bundle, incoming, p, now).Ok?
    requires forall m :: 0 <= m < |incoming| ==> Importable(b, bundle, incoming, m, p, now)
    ensures var taken := AcceptedFrom(b, bundle, incoming, p, now).value;
      && (Among(taken, id).Some? ==>
            && (forall c :: Held(b.claims, c) ==> c.id != id)
            && exists l :: 0 <= l < |incoming| && incoming[l].id == id && SameButRenumbered(incoming[l], Among(taken, id).value))
      && (Among(taken, id).None? ==> Find(b.claims, id).Some? || forall l :: 0 <= l < |incoming| ==> incoming[l].id != id)
  {
    var taken := AcceptedFrom(b, bundle, incoming, p, now).value;
    if Among(taken, id).Some? {
      var m := TakenAreFirstUnknown(b, bundle, incoming, p, now, IndexOf(taken, id, false));
    } else {
      forall l | 0 <= l < |incoming| && incoming[l].id == id ensures Find(b.claims, id).Some? { SeenIsAmong(b, bundle, incoming, p, now, l); }
    }
  }

  lemma AcceptsOne(b: State, bundle: Bundle, taken: seq<Claim>, held: Option<Claim>, c: Claim, p: Principal, now: Time)
    ensures var existing := if Among(taken, c.id).Some? then Among(taken, c.id) else held;
      AcceptOne(b, bundle, taken, held, c, p, now).Ok? <==>
        && c.tenant == bundle.tenant && c.owner == bundle.owner && c.scopeRef == bundle.scopeRef
        && (match existing case Some(d) => SameButRenumbered(c, d) case None => MayTouch(b.grants, p, KeyOf(c), c.level, Write, now))
  {
    TouchingMeans(b.grants, p, KeyOf(c), c.level, Write, now);
    var existing := if Among(taken, c.id).Some? then Among(taken, c.id) else held;
    if existing.Some? { assert SameButRenumbered(c, existing.value) <==> Stable(existing.value) == Stable(c); }
  }

  lemma OneMoreImportable(b: State, bundle: Bundle, front: seq<Claim>, c: Claim, p: Principal, now: Time)
    requires Placed(b.claims) && AcceptedFrom(b, bundle, front, p, now).Ok?
    requires AllImportable(b, bundle, front, p, now)
    ensures var taken := AcceptedFrom(b, bundle, front, p, now).value;
      AcceptOne(b, bundle, taken, Find(b.claims, c.id), c, p, now).Ok? <==> Importable(b, bundle, front + [c], |front|, p, now)
  {
    var taken, incoming, held := AcceptedFrom(b, bundle, front, p, now).value, front + [c], Find(b.claims, c.id);
    TakenAgrees(b, bundle, front, p, now, c.id);
    AcceptsOne(b, bundle, taken, held, c, p, now);
    EarlierAgree(b, bundle, front, p, now, c);
    if Among(taken, c.id).Some? {
      var l :| 0 <= l < |front| && front[l].id == c.id && SameButRenumbered(front[l], Among(taken, c.id).value);
      assert incoming[l] == front[l] && !FirstUnknown(b, incoming, |front|);
    } else if held.Some? {
      assert Held(b.claims, held.value) && !FirstUnknown(b, incoming, |front|);
      forall l | 0 <= l < |front| && front[l].id == c.id ensures SameButRenumbered(front[l], held.value) {
        assert Importable(b, bundle, front, l, p, now);
      }
    } else {
      assert FirstUnknown(b, incoming, |front|);
    }
  }

  /** Claims of one id that were importable agree with each other. */
  lemma EarlierAgree(b: State, bundle: Bundle, front: seq<Claim>, p: Principal, now: Time, c: Claim)
    requires forall m :: 0 <= m < |front| ==> Importable(b, bundle, front, m, p, now)
    ensures forall l, m :: 0 <= l < |front| && 0 <= m < |front| && front[l].id == c.id && front[m].id == c.id ==> SameButRenumbered(front[l], front[m])
  {
    forall l, m | 0 <= l < |front| && 0 <= m < |front| && front[l].id == c.id && front[m].id == c.id
      ensures SameButRenumbered(front[l], front[m])
    {
      assert Importable(b, bundle, front, l, p, now) && Importable(b, bundle, front, m, p, now);
    }
  }

  lemma ImportableInPrefix(b: State, bundle: Bundle, incoming: seq<Claim>, n: nat, m: nat, p: Principal, now: Time)
    requires m < n <= |incoming|
    ensures Importable(b, bundle, incoming, m, p, now) <==> Importable(b, bundle, incoming[..n], m, p, now)
  {
    assert forall l :: 0 <= l <= m ==> incoming[..n][l] == incoming[l];
    assert FirstUnknown(b, incoming, m) <==> FirstUnknown(b, incoming[..n], m);
  }

  ghost predicate AllImportable(b: State, bundle: Bundle, incoming: seq<Claim>, p: Principal, now: Time) {
    forall m :: 0 <= m < |incoming| ==> Importable(b, bundle, incoming, m, p, now)
  }

  lemma OneMoreOfAll(b: State, bundle: Bundle, incoming: seq<Claim>, n: nat, p: Principal, now: Time)
    requires |incoming| == n + 1
    ensures AllImportable(b, bundle, incoming, p, now) <==> AllImportable(b, bundle, incoming[..n], p, now) && Importable(b, bundle, incoming, n, p, now)
  {
    forall m | 0 <= m < n ensures Importable(b, bundle, incoming, m, p, now) <==> Importable(b, bundle, incoming[..n], m, p, now) {
      ImportableInPrefix(b, bundle, incoming, n, m, p, now);
    }
  }

  lemma {:induction false} AcceptedWhenImportable(b: State, bundle: Bundle, incoming: seq<Claim>, p: Principal, now: Time)
    requires Placed(b.claims)
    ensures AcceptedFrom(b, bundle, incoming, p, now).Ok? <==> AllImportable(b, bundle, incoming, p, now)
  {
    if incoming != [] {
      var n := |incoming| - 1;
      AcceptedWhenImportable(b, bundle, incoming[..n], p, now);
      OneMoreOfAll(b, bundle, incoming, n, p, now);
      if AllImportable(b, bundle, incoming[..n], p, now) {
        OneMoreImportable(b, bundle, incoming[..n], incoming[n], p, now);
        assert incoming == incoming[..n] + [incoming[n]];
      }
    }
  }

  /** A bundle is imported exactly by its owner, with the hash of its claims, when every one of
      them can be imported. */
  lemma ImportedExactly(hashOf: Hash, contentHashOf: seq<Claim> -> Id, b: State, bundle: Bundle, p: Principal, now: Time)
    requires Placed(b.claims)
    ensures ImportIn(hashOf, contentHashOf, b, bundle, p, now).Ok? <==>
      && p.isOwner && p.id == bundle.owner && p.tenant == bundle.tenant && bundle.contentHash == contentHashOf(bundle.claims)
      && forall m :: 0 <= m < |bundle.claims| ==> Importable(b, bundle, bundle.claims, m, p, now)
  {
    AcceptedWhenImportable(b, bundle, bundle.claims, p, now);
  }

  // ---------------------------------------------------------------- delete and roll back

  /** A scope is deleted for its owner, and its owner only. */
  lemma DeletedExactly(hashOf: Hash, b: State, scopeRef: Id, p: Principal, now: Time)
    ensures DeleteScopeIn(hashOf, b, scopeRef, p, now).Ok? <==> p.isOwner
  {}

  /** The earlier snapshot of an entry, or else the later one. */
  predicate Shows(e: Payload<Claim>, c: Claim) { if e.before.Some? then c == e.before.value else e.after == Some(c) }

  /** The first entry about this subject that has a snapshot. */
  ghost predicate FirstKnown(log: Log, n: nat, subject: Id) {
    && n < |log| && log[n].payload.subject == subject && (log[n].payload.before.Some? || log[n].payload.after.Some?)
    && forall m :: 0 <= m < n && log[m].payload.subject == subject ==> log[m].payload.before.None? && log[m].payload.after.None?
  }

  lemma {:induction false} FirstSnapshotMeans(log: Log, subject: Id)
    ensures FirstSnapshot(log, subject).Some? ==>
      exists n: nat {:trigger FirstKnown(log, n, subject)} :: FirstKnown(log, n, subject) && Shows(log[n].payload, FirstSnapshot(log, subject).value)
    ensures FirstSnapshot(log, subject).None? ==> forall n: nat :: !FirstKnown(log, n, subject)
  {
    if log != [] {
      var last := |log| - 1;
      var front := log[..last];
      FirstSnapshotMeans(front, subject);
      assert forall m :: 0 <= m < last ==> front[m] == log[m];
      if FirstSnapshot(front, subject).Some? {
        var n: nat :| FirstKnown(front, n, subject) && Shows(front[n].payload, FirstSnapshot(front, subject).value);
        assert FirstKnown(log, n, subject);
      } else {
        NoneKnown(front, subject);
        assert FirstSnapshot(log, subject).Some? ==> FirstKnown(log, last, subject);
      }
    }
  }

  lemma {:induction false} NoneKnown(log: Log, subject: Id)
    requires FirstSnapshot(log, subject).None?
    ensures forall m :: 0 <= m < |log| && log[m].payload.subject == subject ==> log[m].payload.before.None? && log[m].payload.after.None?
  {
    if log != [] { NoneKnown(log[..|log| - 1], subject); }
  }

  /** The claim that decides who may roll an entry back: as the entry shows it, or else as the log
      first shows its subject. */
  ghost predicate Decides(log: Log, e: Payload<Claim>, c: Claim) {
    if e.before.Some? || e.after.Some? then Shows(e, c)
    else exists n: nat {:trigger FirstKnown(log, n, e.subject)} :: FirstKnown(log, n, e.subject) && Shows(log[n].payload, c)
  }

  /** A rollback is taken exactly for a known entry whose claim the log has shown, by the
      installation's operator or by the owner of that claim. */
  lemma RolledBackExactly(hashOf: Hash, b: State, entryId: nat, p: Principal, now: Time)
    requires Inv(hashOf, b)
    ensures RollbackIn(hashOf, b, entryId, p, now).Ok? <==>
      && entryId < |b.changes|
      && exists c :: Decides(b.changes, b.changes[entryId].payload, c) && (p.isOperator || (p.isOwner && c.owner == p.id && c.tenant == p.tenant))
  {
    if entryId < |b.changes| {
      var e := b.changes[entryId].payload;
      FirstSnapshotMeans(b.changes, e.subject);
      var s := SubjectOf(b.changes, e);
      assert s.Some? ==> Decides(b.changes, e, s.value);
      forall c | Decides(b.changes, e, c) ensures s == Some(c) { OneDecides(b.changes, e, c); }
    }
  }

  lemma OneDecides(log: Log, e: Payload<Claim>, c: Claim)
    requires Decides(log, e, c)
    ensures SubjectOf(log, e) == Some(c)
  {
    FirstSnapshotMeans(log, e.subject);
    if e.before.None? && e.after.None? {
      var n: nat :| FirstKnown(log, n, e.subject) && Shows(log[n].payload, c);
      var m: nat :| FirstKnown(log, m, e.subject) && Shows(log[m].payload, FirstSnapshot(log, e.subject).value);
      assert m == n;
    }
  }
}
