/** The claim store and its change log never part: over every sequence of operations the chain
    verifies, and replaying the last snapshot per subject gives exactly the live claims. */
module BrainRuns {
  import opened Basics
  import opened ChangeAudit
  import opened Brain

  // ---------------------------------------------------------------- invariants

  ghost predicate Positioned(log: Log) { forall i :: 0 <= i < |log| ==> log[i].payload.id == i }

  /** Snapshots are snapshots of the entry's subject. */
  ghost predicate Named(log: Log) {
    forall i :: 0 <= i < |log| ==>
      && (log[i].payload.before.Some? ==> log[i].payload.before.value.id == log[i].payload.subject)
      && (log[i].payload.after.Some? ==> log[i].payload.after.value.id == log[i].payload.subject)
  }

  ghost predicate LogInv(hashOf: Hash, log: Log) {
    ValidChain(hashOf, log) && Continuous(log) && Positioned(log) && Named(log)
  }

  ghost predicate Agree(claims: Claims, live: Snapshots<Claim>) {
    && (forall c :: Held(claims, c) ==> c.id in live && live[c.id] == c)
    && (forall id :: id in live ==> Held(claims, live[id]) && live[id].id == id)
  }

  ghost predicate Inv(hashOf: Hash, b: State) {
    Placed(b.claims) && Agree(b.claims, Replay(b.changes)) && LogInv(hashOf, b.changes)
  }

  // ---------------------------------------------------------------- one change

  lemma AppendKeepsLog(hashOf: Hash, log: Log, p: Payload<Claim>)
    requires LogInv(hashOf, log) && p.id == |log| && p.before == SnapshotOf(Replay(log), p.subject)
    requires (p.before.Some? ==> p.before.value.id == p.subject) && (p.after.Some? ==> p.after.value.id == p.subject)
    ensures LogInv(hashOf, Append(hashOf, log, p))
    ensures Replay(Append(hashOf, log, p)) == ApplyChange(Replay(log), p.subject, p.after)
  {
    AppendReplays(hashOf, log, p);
    AppendKeepsChain(hashOf, log, p);
  }

  /** `after` took the place of the claim `id`; everything else is as it was. */
  ghost predicate Became(claims: Claims, next: Claims, id: Id, after: Option<Claim>) {
    forall c :: Held(next, c) <==> (Held(claims, c) && c.id != id) || after == Some(c)
  }

  lemma AgreeAfter(claims: Claims, next: Claims, live: Snapshots<Claim>, id: Id, after: Option<Claim>)
    requires Agree(claims, live) && Became(claims, next, id, after) && (after.Some? ==> after.value.id == id)
    ensures Agree(next, ApplyChange(live, id, after))
  {}

  lemma FindIsSnapshot(claims: Claims, live: Snapshots<Claim>, id: Id)
    requires Agree(claims, live)
    ensures Find(claims, id) == SnapshotOf(live, id)
  {
    if id in live { assert Held(claims, live[id]); }
  }

  /** One recorded change keeps the store and the log in agreement. */
  lemma ChangeKeepsInv(hashOf: Hash, b: State, next: Claims, p: Payload<Claim>)
    requires Inv(hashOf, b) && p.id == |b.changes| && p.before == Find(b.claims, p.subject)
    requires Placed(next) && Became(b.claims, next, p.subject, p.after) && (p.after.Some? ==> p.after.value.id == p.subject)
    ensures Inv(hashOf, State(next, b.grants, Append(hashOf, b.changes, p)))
  {
    FindIsSnapshot(b.claims, Replay(b.changes), p.subject);
    AppendKeepsLog(hashOf, b.changes, p);
    AgreeAfter(b.claims, next, Replay(b.changes), p.subject, p.after);
  }

  lemma RecordKeepsInv(hashOf: Hash, b: State, next: Claims, before: Option<Claim>, after: Option<Claim>, id: Id, actor: Id, trigger: string, now: Time)
    requires Inv(hashOf, b) && (before.Some? || after.Some?) && before == Find(b.claims, id)
    requires (before.Some? ==> before.value.id == id) && (after.Some? ==> after.value.id == id)
    requires Placed(next) && Became(b.claims, next, id, after)
    ensures Inv(hashOf, State(next, b.grants, Record(hashOf, b.changes, before, after, actor, trigger, now)))
  {
    ChangeKeepsInv(hashOf, b, next, Payload(|b.changes|, id, OpOf(before, after), actor, trigger, now, before, after, None));
  }

  // ---------------------------------------------------------------- adding, updating, removing one claim

  lemma FindHeld(claims: Claims, c: Claim)
    requires Placed(claims) && Held(claims, c)
    ensures Find(claims, c.id) == Some(c)
  {}

  lemma AddingOne(claims: Claims, k: Key, c: Claim)
    requires Placed(claims) && KeyOf(c) == k && Find(claims, c.id).None?
    ensures var next := claims[k := History(claims, k) + [c]];
      Placed(next) && Became(claims, next, c.id, Some(c))
  {
    var history := History(claims, k);
    var next := claims[k := history + [c]];
    forall i | 0 <= i < |history| ensures history[i].id != c.id { assert history[i] in claims[k] && Held(claims, history[i]); }
    forall d ensures Held(next, d) <==> (Held(claims, d) && d.id != c.id) || d == c {
      if Held(claims, d) { assert d.id != c.id; }
    }
    forall j, d | j in next && d in next[j] ensures KeyOf(d) == j {
      if j == k && d != c { assert d in claims[k]; }
    }
  }

  lemma UpdatingOne(claims: Claims, k: Key, i: nat, c: Claim)
    requires Placed(claims) && k in claims && i < |claims[k]| && KeyOf(c) == k && c.id == claims[k][i].id
    ensures var next := claims[k := claims[k][i := c]];
      Placed(next) && Became(claims, next, c.id, Some(c))
  {
    var history := claims[k];
    var next := claims[k := history[i := c]];
    assert history[i] in history && Held(claims, history[i]);
    forall d ensures Held(next, d) <==> (Held(claims, d) && d.id != c.id) || d == c { UpdatedMember(history, i, c, d); }
    forall j, d | j in next && d in next[j] ensures KeyOf(d) == j { UpdatedMember(history, i, c, d); }
  }

  lemma UpdatedMember(history: seq<Claim>, i: nat, c: Claim, d: Claim)
    requires i < |history| && history[i].id == c.id && DistinctIds(history)
    ensures d in history[i := c] <==> (d in history && d.id != c.id) || d == c
  {
    var next := history[i := c];
    assert next[i] == c;
    if d in history && d.id != c.id {
      var j :| 0 <= j < |history| && history[j] == d;
      assert next[j] == d;
    }
    if d in next && d != c {
      var j :| 0 <= j < |next| && next[j] == d;
      assert history[j] == d;
    }
  }

  lemma RemovingFirst(claims: Claims, k: Key)
    requires Placed(claims) && k in claims && claims[k] != []
    ensures var next := claims[k := claims[k][1..]];
      Placed(next) && Became(claims, next, claims[k][0].id, None)
  {
    var history := claims[k];
    var next := claims[k := history[1..]];
    assert history[0] in history && Held(claims, history[0]);
    assert history == [history[0]] + history[1..];
    forall d ensures Held(next, d) <==> Held(claims, d) && d.id != history[0].id {
      if d in history[1..] {
        var j :| 0 <= j < |history| - 1 && history[1..][j] == d;
        assert history[j + 1] == d;
      }
    }
    forall j, d | j in next && d in next[j] ensures KeyOf(d) == j {
      if j == k { assert d in history; }
    }
  }

  // ---------------------------------------------------------------- add, retract, replace

  ghost predicate Fresh(b: State, id: Id) { Find(b.claims, id).None? }

  /** The three elementary recorded changes. */
  function Store(hashOf: Hash, b: State, k: Key, c: Claim, actor: Id, trigger: string, now: Time): State {
    State(b.claims[k := History(b.claims, k) + [c]], b.grants, Record(hashOf, b.changes, None, Some(c), actor, trigger, now))
  }

  function RetireOne(hashOf: Hash, b: State, k: Key, i: nat, actor: Id, now: Time): State
    requires k in b.claims && i < |b.claims[k]|
  {
    var c := b.claims[k][i];
    State(b.claims[k := b.claims[k][i := Retired(c, now)]], b.grants,
          Record(hashOf, b.changes, Some(c), Some(Retired(c, now)), actor, "brain.retract", now))
  }

  function DropFirst(hashOf: Hash, b: State, k: Key, actor: Id, now: Time): State
    requires k in b.claims && b.claims[k] != []
  {
    State(b.claims[k := b.claims[k][1..]], b.grants, Record(hashOf, b.changes, Some(b.claims[k][0]), None, actor, "brain.deleteScope", now))
  }

  lemma StoringKeepsInv(hashOf: Hash, b: State, k: Key, c: Claim, actor: Id, trigger: string, now: Time)
    requires Inv(hashOf, b) && Fresh(b, c.id) && KeyOf(c) == k
    ensures Inv(hashOf, Store(hashOf, b, k, c, actor, trigger, now))
  {
    AddingOne(b.claims, k, c);
    RecordKeepsInv(hashOf, b, b.claims[k := History(b.claims, k) + [c]], None, Some(c), c.id, actor, trigger, now);
  }

  lemma RetiringKeepsInv(hashOf: Hash, b: State, k: Key, i: nat, actor: Id, now: Time)
    requires Inv(hashOf, b) && k in b.claims && i < |b.claims[k]|
    ensures Inv(hashOf, RetireOne(hashOf, b, k, i, actor, now))
  {
    var c := b.claims[k][i];
    assert c in b.claims[k] && Held(b.claims, c);
    FindHeld(b.claims, c);
    UpdatingOne(b.claims, k, i, Retired(c, now));
    RecordKeepsInv(hashOf, b, b.claims[k := b.claims[k][i := Retired(c, now)]], Some(c), Some(Retired(c, now)), c.id, actor, "brain.retract", now);
  }

  lemma DroppingKeepsInv(hashOf: Hash, b: State, k: Key, actor: Id, now: Time)
    requires Inv(hashOf, b) && k in b.claims && b.claims[k] != []
    ensures Inv(hashOf, DropFirst(hashOf, b, k, actor, now))
  {
    var c := b.claims[k][0];
    RemovingFirst(b.claims, k);
    assert c in b.claims[k] && Held(b.claims, c);
    FindHeld(b.claims, c);
    RecordKeepsInv(hashOf, b, b.claims[k := b.claims[k][1..]], Some(c), None, c.id, actor, "brain.deleteScope", now);
  }

  lemma AddIsStore(hashOf: Hash, b: State, input: ClaimInput, p: Principal, id: Id, now: Time, next: State)
    requires AddIn(hashOf, b, input, p, id, now) == Ok(next)
    ensures var k := InputKey(input, p);
      next == Store(hashOf, b, k, Created(input, k, |History(b.claims, k)| + 1, id, now), p.id, "brain.addClaim", now)
  {}

  lemma AddKeepsInv(hashOf: Hash, b: State, input: ClaimInput, p: Principal, id: Id, now: Time, next: State)
    requires Inv(hashOf, b) && Fresh(b, id) && AddIn(hashOf, b, input, p, id, now) == Ok(next)
    ensures Inv(hashOf, next)
  {
    var k := InputKey(input, p);
    var c := Created(input, k, |History(b.claims, k)| + 1, id, now);
    AddIsStore(hashOf, b, input, p, id, now, next);
    assert next == Store(hashOf, b, k, c, p.id, "brain.addClaim", now);
    StoringKeepsInv(hashOf, b, k, c, p.id, "brain.addClaim", now);
  }

  lemma {:induction false} RetireEachTouchesOnlyTargets(history: seq<Claim>, ids: seq<Id>, now: Time, j: nat)
    requires j < |history| && history[j].id !in ids
    ensures RetireEach(history, ids, now)[j] == history[j]
  {
    if ids != [] {
      var n := |ids| - 1;
      assert ids == ids[..n] + [ids[n]];
      RetireEachTouchesOnlyTargets(history, ids[..n], now, j);
    }
  }

  function AllRetired(hashOf: Hash, b: State, k: Key, ids: seq<Id>, actor: Id, now: Time): State
    requires k in b.claims
  {
    State(b.claims[k := RetireEach(b.claims[k], ids, now)], b.grants, RecordEach(hashOf, b.changes, b.claims[k], ids, actor, now))
  }

  lemma RetiringStep(hashOf: Hash, b: State, k: Key, ids: seq<Id>, actor: Id, now: Time)
    requires k in b.claims && NoDuplicates(ids) && ids != []
    ensures var n, i := |ids| - 1, IndexOf(b.claims[k], ids[|ids| - 1], true);
      var front := AllRetired(hashOf, b, k, ids[..n], actor, now);
      AllRetired(hashOf, b, k, ids, actor, now) == if i < |b.claims[k]| then RetireOne(hashOf, front, k, i, actor, now) else front
  {
    var history, n := b.claims[k], |ids| - 1;
    var i := IndexOf(history, ids[n], true);
    if i < |history| {
      assert ids[n] !in ids[..n];
      RetireEachTouchesOnlyTargets(history, ids[..n], now, i);
      var front := RetireEach(history, ids[..n], now);
      assert b.claims[k := front][k := front[i := Retired(history[i], now)]] == b.claims[k := RetireEach(history, ids, now)];
    }
  }

  /** With every further target its retraction is stored and recorded. */
  lemma {:induction false} RetireEachKeepsInv(hashOf: Hash, b: State, k: Key, ids: seq<Id>, actor: Id, now: Time)
    requires Inv(hashOf, b) && k in b.claims && NoDuplicates(ids)
    ensures Inv(hashOf, AllRetired(hashOf, b, k, ids, actor, now))
  {
    if ids == [] {
      assert b.claims[k := b.claims[k]] == b.claims;
    } else {
      var front := AllRetired(hashOf, b, k, ids[..|ids| - 1], actor, now);
      RetireEachKeepsInv(hashOf, b, k, ids[..|ids| - 1], actor, now);
      RetiringStep(hashOf, b, k, ids, actor, now);
      var i := IndexOf(b.claims[k], ids[|ids| - 1], true);
      if i < |b.claims[k]| { RetiringKeepsInv(hashOf, front, k, i, actor, now); }
    }
  }

  lemma {:induction false} RetireEachKeepsIds(history: seq<Claim>, ids: seq<Id>, now: Time, j: nat)
    requires j < |history|
    ensures RetireEach(history, ids, now)[j].id == history[j].id && KeyOf(RetireEach(history, ids, now)[j]) == KeyOf(history[j])
  {
    if ids != [] { RetireEachKeepsIds(history, ids[..|ids| - 1], now, j); }
  }

  lemma RetiringKeepsFresh(b: State, k: Key, ids: seq<Id>, now: Time, id: Id)
    requires Placed(b.claims) && k in b.claims && Fresh(b, id)
    ensures Find(b.claims[k := RetireEach(b.claims[k], ids, now)], id).None?
  {
    var history := b.claims[k];
    var next := b.claims[k := RetireEach(history, ids, now)];
    forall c | Held(next, c) ensures c.id != id {
      if KeyOf(c) == k {
        var j :| 0 <= j < |next[k]| && next[k][j] == c;
        RetireEachKeepsIds(history, ids, now, j);
        assert history[j] in b.claims[k] && Held(b.claims, history[j]);
      } else {
        assert Held(b.claims, c);
      }
    }
  }

  lemma {:induction false} TargetsExist(b: State, k: Key, ids: seq<Id>, p: Principal, now: Time)
    requires TargetError(b, k, ids, p, now).None? && ids != []
    ensures k in b.claims
  {
    if |ids| > 1 { TargetsExist(b, k, ids[..|ids| - 1], p, now); }
  }

  lemma ReplaceKeepsInv(hashOf: Hash, b: State, scopeRef: Id, claimIds: seq<Id>, input: ClaimInput, p: Principal, owner: Id, id: Id, now: Time)
    requires Inv(hashOf, b) && Fresh(b, id) && ReplaceIn(hashOf, b, scopeRef, claimIds, input, p, owner, id, now).Ok?
    ensures Inv(hashOf, ReplaceIn(hashOf, b, scopeRef, claimIds, input, p, owner, id, now).value)
  {
    var k, target, ids := Key(p.tenant, owner, scopeRef), InputKey(input, p), Distinct(claimIds);
    if ids == [] {
      AddKeepsInv(hashOf, b, input, p, id, now, AddIn(hashOf, b, input, p, id, now).value);
    } else {
      TargetsExist(b, k, ids, p, now);
      DistinctKeepsMembers(claimIds);
      RetireEachKeepsInv(hashOf, b, k, ids, p.id, now);
      RetiringKeepsFresh(b, k, ids, now, id);
      var mid := AllRetired(hashOf, b, k, ids, p.id, now);
      StoringKeepsInv(hashOf, mid, target, Created(input, target, |History(mid.claims, target)| + 1, id, now), p.id, "brain.addClaim", now);
    }
  }

  // ---------------------------------------------------------------- import and delete

  /** What a bundle adds: new ids only, each once, all in the bundle's scope. */
  ghost predicate AllNew(b: State, k: Key, taken: seq<Claim>) {
    && DistinctIds(taken)
    && (forall i :: 0 <= i < |taken| ==> KeyOf(taken[i]) == k && Find(b.claims, taken[i].id).None?)
  }

  lemma {:induction false} AcceptedAreNew(b: State, bundle: Bundle, incoming: seq<Claim>, p: Principal, now: Time)
    requires AcceptedFrom(b, bundle, incoming, p, now).Ok?
    ensures AllNew(b, ScopeOf(bundle), AcceptedFrom(b, bundle, incoming, p, now).value)
  {
    if incoming != [] { AcceptedAreNew(b, bundle, incoming[..|incoming| - 1], p, now); }
  }

  function AllCreated(hashOf: Hash, b: State, k: Key, taken: seq<Claim>, actor: Id, now: Time): State {
    State(if taken == [] then b.claims else b.claims[k := History(b.claims, k) + taken], b.grants,
          RecordCreations(hashOf, b.changes, taken, actor, now))
  }

  lemma CreatingStep(hashOf: Hash, b: State, k: Key, taken: seq<Claim>, actor: Id, now: Time)
    requires taken != []
    ensures var n := |taken| - 1;
      AllCreated(hashOf, b, k, taken, actor, now)
      == Store(hashOf, AllCreated(hashOf, b, k, taken[..n], actor, now), k, taken[n], actor, "brain.importBundle", now)
  {
    var n, history := |taken| - 1, History(b.claims, k);
    assert taken == taken[..n] + [taken[n]];
    assert history + taken == (history + taken[..n]) + [taken[n]];
    if n > 0 { assert b.claims[k := history + taken[..n]][k := history + taken] == b.claims[k := history + taken]; }
  }

  lemma CreatedAreHeld(b: State, k: Key, taken: seq<Claim>, c: Claim)
    requires Held(b.claims[k := History(b.claims, k) + taken], c)
    ensures Held(b.claims, c) || c in taken
  {}

  lemma {:induction false} CreationsKeepInv(hashOf: Hash, b: State, k: Key, taken: seq<Claim>, actor: Id, now: Time)
    requires Inv(hashOf, b) && AllNew(b, k, taken)
    ensures Inv(hashOf, AllCreated(hashOf, b, k, taken, actor, now))
  {
    if taken != [] {
      var n := |taken| - 1;
      var mid := AllCreated(hashOf, b, k, taken[..n], actor, now);
      CreationsKeepInv(hashOf, b, k, taken[..n], actor, now);
      CreatingStep(hashOf, b, k, taken, actor, now);
      LastIsFresh(hashOf, b, k, taken, actor, now);
      StoringKeepsInv(hashOf, mid, k, taken[n], actor, "brain.importBundle", now);
    }
  }

  lemma LastIsFresh(hashOf: Hash, b: State, k: Key, taken: seq<Claim>, actor: Id, now: Time)
    requires AllNew(b, k, taken) && taken != []
    ensures Fresh(AllCreated(hashOf, b, k, taken[..|taken| - 1], actor, now), taken[|taken| - 1].id)
  {
    var n := |taken| - 1;
    var mid := AllCreated(hashOf, b, k, taken[..n], actor, now);
    forall c | Held(mid.claims, c) ensures c.id != taken[n].id {
      if !Held(b.claims, c) {
        CreatedAreHeld(b, k, taken[..n], c);
        var j :| 0 <= j < n && taken[..n][j] == c;
        assert taken[j] == c;
      }
    }
  }

  lemma ImportKeepsInv(hashOf: Hash, contentHashOf: seq<Claim> -> Id, b: State, bundle: Bundle, p: Principal, now: Time)
    requires Inv(hashOf, b) && ImportIn(hashOf, contentHashOf, b, bundle, p, now).Ok?
    ensures Inv(hashOf, ImportIn(hashOf, contentHashOf, b, bundle, p, now).value)
  {
    AcceptedAreNew(b, bundle, bundle.claims, p, now);
    var taken := AcceptedFrom(b, bundle, bundle.claims, p, now).value;
    CreationsKeepInv(hashOf, b, ScopeOf(bundle), taken, p.id, now);
  }

  function SomeDeleted(hashOf: Hash, b: State, k: Key, n: nat, actor: Id, now: Time): State
    requires k in b.claims && n <= |b.claims[k]|
  {
    State(b.claims[k := b.claims[k][n..]], b.grants, RecordDeletions(hashOf, b.changes, b.claims[k][..n], actor, now))
  }

  lemma DeletingStep(hashOf: Hash, b: State, k: Key, n: nat, actor: Id, now: Time)
    requires k in b.claims && 0 < n <= |b.claims[k]|
    ensures SomeDeleted(hashOf, b, k, n, actor, now) == DropFirst(hashOf, SomeDeleted(hashOf, b, k, n - 1, actor, now), k, actor, now)
  {
    var history := b.claims[k];
    assert history[..n][..n - 1] == history[..n - 1];
    assert history[n - 1..][1..] == history[n..];
    assert b.claims[k := history[n - 1..]][k := history[n..]] == b.claims[k := history[n..]];
  }

  /** After n deletions the rest of the scope is still there. */
  lemma {:induction false} DeletionsKeepInv(hashOf: Hash, b: State, k: Key, n: nat, actor: Id, now: Time)
    requires Inv(hashOf, b) && k in b.claims && n <= |b.claims[k]|
    ensures Inv(hashOf, SomeDeleted(hashOf, b, k, n, actor, now))
  {
    if n == 0 {
      assert b.claims[k][0..] == b.claims[k] && b.claims[k := b.claims[k]] == b.claims;
    } else {
      DeletionsKeepInv(hashOf, b, k, n - 1, actor, now);
      DeletingStep(hashOf, b, k, n, actor, now);
      DroppingKeepsInv(hashOf, SomeDeleted(hashOf, b, k, n - 1, actor, now), k, actor, now);
    }
  }

  lemma DroppingEmptyScope(hashOf: Hash, b: State, k: Key)
    requires Inv(hashOf, b) && k in b.claims && b.claims[k] == []
    ensures Inv(hashOf, b.(claims := b.claims - {k}))
  {
    forall c ensures Held(b.claims - {k}, c) <==> Held(b.claims, c) {}
  }

  lemma DeleteIsDrops(hashOf: Hash, b: State, k: Key, actor: Id, now: Time)
    requires k in b.claims
    ensures var mid := SomeDeleted(hashOf, b, k, |b.claims[k]|, actor, now);
      && k in mid.claims && mid.claims[k] == [] && mid.claims - {k} == b.claims - {k}
      && mid.changes == RecordDeletions(hashOf, b.changes, b.claims[k], actor, now) && mid.grants == b.grants
  {
    var n := |b.claims[k]|;
    assert b.claims[k][..n] == b.claims[k] && b.claims[k][n..] == [];
  }

  lemma GrantsDoNotMatter(hashOf: Hash, b: State, grants: map<Id, Grant>)
    requires Inv(hashOf, b)
    ensures Inv(hashOf, b.(grants := grants))
  {}

  lemma DeleteScopeKeepsInv(hashOf: Hash, b: State, scopeRef: Id, p: Principal, now: Time, next: State)
    requires Inv(hashOf, b) && DeleteScopeIn(hashOf, b, scopeRef, p, now) == Ok(next)
    ensures Inv(hashOf, next)
  {
    var k := Key(p.tenant, p.id, scopeRef);
    if k in b.claims {
      var mid := SomeDeleted(hashOf, b, k, |b.claims[k]|, p.id, now);
      DeleteIsDrops(hashOf, b, k, p.id, now);
      DeletionsKeepInv(hashOf, b, k, |b.claims[k]|, p.id, now);
      DroppingEmptyScope(hashOf, mid, k);
      var dropped := mid.(claims := mid.claims - {k});
      GrantsDoNotMatter(hashOf, dropped, next.grants);
      assert dropped.(grants := next.grants) == next;
    } else {
      assert b.claims - {k} == b.claims;
      GrantsDoNotMatter(hashOf, b, next.grants);
      assert b.(grants := next.grants) == next;
    }
  }

  // ---------------------------------------------------------------- rollback

  lemma {:induction false} WithoutMeans(history: seq<Claim>, id: Id)
    ensures forall c :: c in Without(history, id) <==> c in history && c.id != id
    ensures DistinctIds(history) ==> DistinctIds(Without(history, id))
  {
    if history != [] {
      var n := |history| - 1;
      WithoutMeans(history[..n], id);
      assert history == history[..n] + [history[n]];
      if DistinctIds(history) {
        var front := Without(history[..n], id);
        forall i | 0 <= i < |front| ensures front[i].id != history[n].id { assert front[i] in history[..n]; }
      }
    }
  }

  lemma {:induction false} InsertKeepsMembers(sorted: seq<Claim>, c: Claim)
    ensures forall d :: d in InsertByVersion(sorted, c) <==> d in sorted || d == c
  {
    if sorted != [] && sorted[|sorted| - 1].version > c.version {
      InsertKeepsMembers(sorted[..|sorted| - 1], c);
      assert sorted == sorted[..|sorted| - 1] + [sorted[|sorted| - 1]];
    }
  }

  lemma {:induction false} InsertKeepsDistinct(sorted: seq<Claim>, c: Claim)
    requires DistinctIds(sorted) && forall d :: d in sorted ==> d.id != c.id
    ensures DistinctIds(InsertByVersion(sorted, c))
  {
    if sorted != [] && sorted[|sorted| - 1].version > c.version {
      var n := |sorted| - 1;
      InsertKeepsDistinct(sorted[..n], c);
      InsertKeepsMembers(sorted[..n], c);
      var next := InsertByVersion(sorted[..n], c);
      forall i | 0 <= i < |next| ensures next[i].id != sorted[n].id { assert next[i] in next; }
    }
  }

  lemma {:induction false} InsertKeepsOrder(sorted: seq<Claim>, c: Claim)
    requires ByVersion(sorted)
    ensures ByVersion(InsertByVersion(sorted, c))
  {
    if sorted != [] && sorted[|sorted| - 1].version > c.version {
      var n := |sorted| - 1;
      InsertKeepsOrder(sorted[..n], c);
      InsertKeepsMembers(sorted[..n], c);
      var next := InsertByVersion(sorted[..n], c);
      forall i | 0 <= i < |next| ensures next[i].version <= sorted[n].version { assert next[i] in next; }
    }
  }

  predicate ByVersion(history: seq<Claim>) { forall i, j :: 0 <= i < j < |history| ==> history[i].version <= history[j].version }

  lemma {:induction false} SortMeans(history: seq<Claim>)
    ensures forall c :: c in SortByVersion(history) <==> c in history
    ensures DistinctIds(history) ==> DistinctIds(SortByVersion(history))
    ensures ByVersion(SortByVersion(history))
  {
    if history != [] {
      var n := |history| - 1;
      SortMeans(history[..n]);
      var sorted := SortByVersion(history[..n]);
      InsertKeepsMembers(sorted, history[n]);
      InsertKeepsOrder(sorted, history[n]);
      assert history == history[..n] + [history[n]];
      if DistinctIds(history) { InsertKeepsDistinct(sorted, history[n]); }
    }
  }

  lemma WipingRemoves(claims: Claims, id: Id)
    requires Placed(claims)
    ensures Placed(Wiped(claims, id)) && Became(claims, Wiped(claims, id), id, None)
    ensures Find(Wiped(claims, id), id).None?
  {
    var wiped := Wiped(claims, id);
    forall k | k in claims ensures DistinctIds(wiped[k]) && forall c :: c in wiped[k] <==> c in claims[k] && c.id != id {
      WithoutMeans(claims[k], id);
    }
  }

  lemma SortingScope(claims: Claims, k: Key)
    requires Placed(claims) && k in claims
    ensures var next := claims[k := SortByVersion(claims[k])];
      Placed(next) && forall c :: Held(next, c) <==> Held(claims, c)
  {
    var next := claims[k := SortByVersion(claims[k])];
    SortMeans(claims[k]);
    assert forall c :: Held(next, c) <==> Held(claims, c);
  }

  lemma RestoringMeans(claims: Claims, id: Id, snapshot: Option<Claim>)
    requires Placed(claims) && (snapshot.Some? ==> snapshot.value.id == id)
    ensures Placed(Restored(claims, id, snapshot)) && Became(claims, Restored(claims, id, snapshot), id, snapshot)
  {
    WipingRemoves(claims, id);
    var wiped := Wiped(claims, id);
    if snapshot.Some? {
      var c, k := snapshot.value, KeyOf(snapshot.value);
      AddingOne(wiped, k, c);
      var added := wiped[k := History(wiped, k) + [c]];
      SortingScope(added, k);
      assert added[k := SortByVersion(added[k])] == Restored(claims, id, snapshot);
    }
  }

  lemma RollbackKeepsInv(hashOf: Hash, b: State, entryId: nat, p: Principal, now: Time)
    requires Inv(hashOf, b)
    ensures RollbackIn(hashOf, b, entryId, p, now).Ok? ==> Inv(hashOf, RollbackIn(hashOf, b, entryId, p, now).value)
  {
    if RollbackIn(hashOf, b, entryId, p, now).Ok? {
      var e := b.changes[EntryIndex(b.changes, entryId)].payload;
      var entry := Payload(|b.changes|, e.subject, Rollback, p.id, "rollback", now, Find(b.claims, e.subject), e.before, None);
      var restored := Restored(b.claims, e.subject, e.before);
      var next := State(restored, b.grants, Append(hashOf, b.changes, entry));
      assert RollbackIn(hashOf, b, entryId, p, now).value == next;
      RestoringMeans(b.claims, e.subject, e.before);
      ChangeKeepsInv(hashOf, b, restored, entry);
    }
  }

  // ---------------------------------------------------------------- runs

  datatype Step =
    | Add(input: ClaimInput, p: Principal, freshId: Id, now: Time)
    | RetractClaim(scopeRef: Id, id: Id, p: Principal, owner: Id, now: Time)
    | Replace(scopeRef: Id, claimIds: seq<Id>, input: ClaimInput, p: Principal, owner: Id, freshId: Id, now: Time)
    | Import(bundle: Bundle, p: Principal, now: Time)
    | DeleteScope(scopeRef: Id, p: Principal, now: Time)
    | RollbackChange(entryId: nat, p: Principal, now: Time)
    | ChangeGrants(grants: map<Id, Grant>)

  function Kept(b: State, answer: Result<State, Failure>): State { match answer case Ok(next) => next case Err(_) => b }

  /** Claim ids are random and never repeat: a step with an id in use does not occur. */
  ghost function Next(hashOf: Hash, contentHashOf: seq<Claim> -> Id, b: State, s: Step): State {
    match s
    case Add(input, p, id, now) => if Fresh(b, id) then Kept(b, AddIn(hashOf, b, input, p, id, now)) else b
    case RetractClaim(scopeRef, id, p, owner, now) => Kept(b, RetractIn(hashOf, b, scopeRef, id, p, owner, now))
    case Replace(scopeRef, ids, input, p, owner, id, now) =>
      if Fresh(b, id) then Kept(b, ReplaceIn(hashOf, b, scopeRef, ids, input, p, owner, id, now)) else b
    case Import(bundle, p, now) => Kept(b, ImportIn(hashOf, contentHashOf, b, bundle, p, now))
    case DeleteScope(scopeRef, p, now) => Kept(b, DeleteScopeIn(hashOf, b, scopeRef, p, now))
    case RollbackChange(entryId, p, now) => Kept(b, RollbackIn(hashOf, b, entryId, p, now))
    case ChangeGrants(grants) => b.(grants := grants)
  }

  ghost function Run(hashOf: Hash, contentHashOf: seq<Claim> -> Id, b: State, steps: seq<Step>): State {
    if steps == [] then b
    else Next(hashOf, contentHashOf, Run(hashOf, contentHashOf, b, steps[..|steps| - 1]), steps[|steps| - 1])
  }

  lemma RetractKeepsInv(hashOf: Hash, b: State, scopeRef: Id, id: Id, p: Principal, owner: Id, now: Time)
    requires Inv(hashOf, b)
    ensures Inv(hashOf, Kept(b, RetractIn(hashOf, b, scopeRef, id, p, owner, now)))
  {
    if RetractIn(hashOf, b, scopeRef, id, p, owner, now).Ok? {
      var k := Key(p.tenant, owner, scopeRef);
      RetiringKeepsInv(hashOf, b, k, IndexOf(b.claims[k], id, false), p.id, now);
    }
  }

  lemma StepKeepsInv(hashOf: Hash, contentHashOf: seq<Claim> -> Id, b: State, s: Step)
    requires Inv(hashOf, b)
    ensures Inv(hashOf, Next(hashOf, contentHashOf, b, s))
  {
    match s
    case Add(input, p, id, now) =>
      if Fresh(b, id) && AddIn(hashOf, b, input, p, id, now).Ok? {
        AddKeepsInv(hashOf, b, input, p, id, now, AddIn(hashOf, b, input, p, id, now).value);
      }
    case RetractClaim(scopeRef, id, p, owner, now) =>
      RetractKeepsInv(hashOf, b, scopeRef, id, p, owner, now);
    case Replace(scopeRef, ids, input, p, owner, id, now) =>
      if Fresh(b, id) && ReplaceIn(hashOf, b, scopeRef, ids, input, p, owner, id, now).Ok? {
        ReplaceKeepsInv(hashOf, b, scopeRef, ids, input, p, owner, id, now);
      }
    case Import(bundle, p, now) =>
      if ImportIn(hashOf, contentHashOf, b, bundle, p, now).Ok? { ImportKeepsInv(hashOf, contentHashOf, b, bundle, p, now); }
    case DeleteScope(scopeRef, p, now) =>
      if DeleteScopeIn(hashOf, b, scopeRef, p, now).Ok? {
        DeleteScopeKeepsInv(hashOf, b, scopeRef, p, now, DeleteScopeIn(hashOf, b, scopeRef, p, now).value);
      }
    case RollbackChange(entryId, p, now) =>
      RollbackKeepsInv(hashOf, b, entryId, p, now);
    case ChangeGrants(_) =>
  }

  lemma {:induction false} EveryRunKeepsInv(hashOf: Hash, contentHashOf: seq<Claim> -> Id, b: State, steps: seq<Step>)
    requires Inv(hashOf, b)
    ensures Inv(hashOf, Run(hashOf, contentHashOf, b, steps))
  {
    if steps != [] {
      EveryRunKeepsInv(hashOf, contentHashOf, b, steps[..|steps| - 1]);
      StepKeepsInv(hashOf, contentHashOf, Run(hashOf, contentHashOf, b, steps[..|steps| - 1]), steps[|steps| - 1]);
    }
  }

  // ---------------------------------------------------------------- main results

  /** After any sequence of operations from empty the chain verifies, every entry's `before` is
      what the log had, and the last `after` per subject is exactly the set of live claims. */
  lemma LogAndStoreAgree(hashOf: Hash, contentHashOf: seq<Claim> -> Id, steps: seq<Step>, c: Claim)
    ensures var b := Run(hashOf, contentHashOf, State(map[], map[], []), steps);
      && ValidChain(hashOf, b.changes) && Continuous(b.changes) && Placed(b.claims)
      && (Held(b.claims, c) <==> c.id in Replay(b.changes) && Replay(b.changes)[c.id] == c)
  {
    EveryRunKeepsInv(hashOf, contentHashOf, State(map[], map[], []), steps);
  }

  /** Rolling an entry back restores its subject to the state before the entry and touches no
      other claim. */
  lemma RollbackRestoresOneSubject(hashOf: Hash, b: State, entryId: nat, p: Principal, now: Time, c: Claim)
    requires Inv(hashOf, b)
    ensures var answer := RollbackIn(hashOf, b, entryId, p, now);
      answer.Ok? ==>
        var next, i := answer.value, EntryIndex(b.changes, entryId);
        && i < |b.changes| && entryId <= |b.changes| && b.changes[i].payload.id == entryId
        && var subject := b.changes[i].payload.subject;
          && Find(next.claims, subject) == SnapshotOf(Replay(b.changes[..entryId]), subject)
          && (c.id != subject ==> (Held(next.claims, c) <==> Held(b.claims, c)))
  {
    if RollbackIn(hashOf, b, entryId, p, now).Ok? {
      var e := b.changes[EntryIndex(b.changes, entryId)].payload;
      RestoringMeans(b.claims, e.subject, e.before);
      ContinuousAt(b.changes, entryId);
      if e.before.Some? { FindHeld(Restored(b.claims, e.subject, e.before), e.before.value); }
    }
  }

  lemma {:induction false} ContinuousAt(log: Log, i: nat)
    requires Continuous(log) && i < |log|
    ensures log[i].payload.before == SnapshotOf(Replay(log[..i]), log[i].payload.subject)
  {
    var n := |log| - 1;
    if i < n {
      ContinuousAt(log[..n], i);
      assert log[..n][..i] == log[..i];
    }
  }

  /** Importing a bundle a second time adds nothing and changes no claim. */
  lemma ImportIsIdempotent(hashOf: Hash, contentHashOf: seq<Claim> -> Id, b: State, bundle: Bundle, p: Principal, now: Time, later: Time)
    requires Inv(hashOf, b) && ImportIn(hashOf, contentHashOf, b, bundle, p, now).Ok?
    ensures var next := ImportIn(hashOf, contentHashOf, b, bundle, p, now).value;
      ImportIn(hashOf, contentHashOf, next, bundle, p, later) == Ok(next)
  {
    var next := ImportIn(hashOf, contentHashOf, b, bundle, p, now).value;
    ImportKeepsInv(hashOf, contentHashOf, b, bundle, p, now);
    var taken := AcceptedFrom(b, bundle, bundle.claims, p, now).value;
    assert bundle.claims[..|bundle.claims|] == bundle.claims;
    ImportedAreThere(hashOf, contentHashOf, b, bundle, p, now, |bundle.claims|, later);
  }

  lemma {:induction false} RetireEachAt(history: seq<Claim>, ids: seq<Id>, now: Time, j: nat)
    requires DistinctIds(history) && NoDuplicates(ids) && j < |history|
    ensures RetireEach(history, ids, now)[j] == if history[j].id in ids && history[j].active then Retired(history[j], now) else history[j]
  {
    if ids != [] {
      var n := |ids| - 1;
      assert ids == ids[..n] + [ids[n]];
      RetireEachAt(history, ids[..n], now, j);
      var i := IndexOf(history, ids[n], true);
      if j < i { assert history[j].id != ids[n] || !history[j].active; }
      if history[j].id == ids[n] && history[j].active { assert ids[n] !in ids[..n]; }
    }
  }

  lemma {:induction false} TargetsAreActive(b: State, k: Key, ids: seq<Id>, p: Principal, now: Time, j: nat)
    requires TargetError(b, k, ids, p, now).None? && j < |ids|
    ensures var i := IndexOf(History(b.claims, k), ids[j], true);
      i < |History(b.claims, k)| && Permitted(b.grants, p, k, History(b.claims, k)[i].level, Retract, now)
  {
    if j < |ids| - 1 { TargetsAreActive(b, k, ids[..|ids| - 1], p, now, j); }
  }

  lemma RetiredAreHeld(hashOf: Hash, b: State, k: Key, claimIds: seq<Id>, ids: seq<Id>, actor: Id, now: Time, d: Claim)
    requires Placed(b.claims) && k in b.claims && NoDuplicates(ids) && Held(b.claims, d) && (forall x :: x in ids <==> x in claimIds)
    ensures Held(AllRetired(hashOf, b, k, ids, actor, now).claims,
                 if KeyOf(d) == k && d.active && d.id in claimIds then d.(active := false, updatedAt := now) else d)
  {
    if KeyOf(d) == k {
      var j :| 0 <= j < |b.claims[k]| && b.claims[k][j] == d;
      RetireEachAt(b.claims[k], ids, now, j);
      assert RetireEach(b.claims[k], ids, now)[j] in RetireEach(b.claims[k], ids, now);
    }
  }

  lemma ReplaceIsRetireThenStore(
      hashOf: Hash, b: State, scopeRef: Id, claimIds: seq<Id>, input: ClaimInput, p: Principal, owner: Id, id: Id, now: Time, next: State)
    requires claimIds != [] && ReplaceIn(hashOf, b, scopeRef, claimIds, input, p, owner, id, now) == Ok(next)
    ensures var k, target, ids := Key(p.tenant, owner, scopeRef), InputKey(input, p), Distinct(claimIds);
      && k in b.claims && TargetError(b, k, ids, p, now).None? && NoDuplicates(ids) && (forall x :: x in ids <==> x in claimIds)
      && var mid := AllRetired(hashOf, b, k, ids, p.id, now);
      next.claims == mid.claims[target := History(mid.claims, target) + [Created(input, target, |History(mid.claims, target)| + 1, id, now)]]
  {
    DistinctKeepsMembers(claimIds);
    assert claimIds[0] in Distinct(claimIds);
    TargetsExist(b, Key(p.tenant, owner, scopeRef), Distinct(claimIds), p, now);
  }

  /** Every named claim was active in the scope and could be retracted by the caller. */
  lemma ReplacedWereActive(
      hashOf: Hash, b: State, scopeRef: Id, claimIds: seq<Id>, input: ClaimInput, p: Principal, owner: Id, id: Id, now: Time, next: State, x: Id)
    requires ReplaceIn(hashOf, b, scopeRef, claimIds, input, p, owner, id, now) == Ok(next) && x in claimIds
    ensures var k := Key(p.tenant, owner, scopeRef);
      k in b.claims && exists i :: 0 <= i < |b.claims[k]| && b.claims[k][i].id == x && b.claims[k][i].active
                                  && Permitted(b.grants, p, k, b.claims[k][i].level, Retract, now)
  {
    ReplaceIsRetireThenStore(hashOf, b, scopeRef, claimIds, input, p, owner, id, now, next);
    var ids := Distinct(claimIds);
    var j :| 0 <= j < |ids| && ids[j] == x;
    TargetsAreActive(b, Key(p.tenant, owner, scopeRef), ids, p, now, j);
  }

  /** A replacement deactivates exactly the named active claims, keeps the rest of them and every
      other claim as it was, and stores one new active claim. */
  lemma ReplaceRetractsExactly(
      hashOf: Hash, b: State, scopeRef: Id, claimIds: seq<Id>, input: ClaimInput, p: Principal, owner: Id, id: Id, now: Time, d: Claim)
    requires Inv(hashOf, b) && Fresh(b, id) && claimIds != [] && Held(b.claims, d)
    ensures var answer := ReplaceIn(hashOf, b, scopeRef, claimIds, input, p, owner, id, now);
      answer.Ok? ==>
        var next := answer.value.claims;
        && Find(next, d.id)
           == Some(if d.tenant == p.tenant && d.owner == owner && d.scopeRef == scopeRef && d.active && d.id in claimIds
                   then d.(active := false, updatedAt := now) else d)
        && Find(next, id).Some? && Find(next, id).value.active && KeyOf(Find(next, id).value) == InputKey(input, p)
  {
    if ReplaceIn(hashOf, b, scopeRef, claimIds, input, p, owner, id, now).Ok? {
      var next := ReplaceIn(hashOf, b, scopeRef, claimIds, input, p, owner, id, now).value;
      var k, target, ids := Key(p.tenant, owner, scopeRef), InputKey(input, p), Distinct(claimIds);
      ReplaceIsRetireThenStore(hashOf, b, scopeRef, claimIds, input, p, owner, id, now, next);
      var mid := AllRetired(hashOf, b, k, ids, p.id, now);
      var created := Created(input, target, |History(mid.claims, target)| + 1, id, now);
      RetireEachKeepsInv(hashOf, b, k, ids, p.id, now);
      RetiringKeepsFresh(b, k, ids, now, id);
      AddingOne(mid.claims, target, created);
      RetiredAreHeld(hashOf, b, k, claimIds, ids, p.id, now, d);
      var kept := if KeyOf(d) == k && d.active && d.id in claimIds then d.(active := false, updatedAt := now) else d;
      StoredAreFound(mid.claims, next.claims, created, kept);
    }
  }

  lemma StoredAreFound(claims: Claims, next: Claims, created: Claim, d: Claim)
    requires Placed(next) && Became(claims, next, created.id, Some(created)) && Held(claims, d) && Find(claims, created.id).None?
    ensures Find(next, d.id) == Some(d) && Find(next, created.id) == Some(created)
  {
    assert d.id != created.id;
    assert Held(next, d) && Held(next, created);
    FindHeld(next, d);
    FindHeld(next, created);
  }

  lemma {:induction false} AcceptedPrefix(b: State, bundle: Bundle, incoming: seq<Claim>, n: nat, p: Principal, now: Time)
    requires n <= |incoming| && AcceptedFrom(b, bundle, incoming, p, now).Ok?
    ensures AcceptedFrom(b, bundle, incoming[..n], p, now).Ok?
    ensures AcceptedFrom(b, bundle, incoming[..n], p, now).value <= AcceptedFrom(b, bundle, incoming, p, now).value
    decreases |incoming|
  {
    if n < |incoming| {
      AcceptedPrefix(b, bundle, incoming[..|incoming| - 1], n, p, now);
      assert incoming[..|incoming| - 1][..n] == incoming[..n];
    } else {
      assert incoming[..n] == incoming;
    }
  }

  /** The n-th incoming claim is held after the import, as itself or in a stable copy. */
  lemma ImportedIsHeld(hashOf: Hash, contentHashOf: seq<Claim> -> Id, b: State, bundle: Bundle, p: Principal, now: Time, n: nat) returns (d: Claim)
    requires ImportIn(hashOf, contentHashOf, b, bundle, p, now).Ok? && n < |bundle.claims|
    ensures Held(ImportIn(hashOf, contentHashOf, b, bundle, p, now).value.claims, d)
    ensures d.id == bundle.claims[n].id && (d == bundle.claims[n] || Stable(d) == Stable(bundle.claims[n]))
    ensures KeyOf(bundle.claims[n]) == ScopeOf(bundle)
  {
    var c := bundle.claims[n];
    AcceptedPrefix(b, bundle, bundle.claims, n + 1, p, now);
    ImportedIsFound(b, bundle, bundle.claims[..n + 1], p, now);
    AcceptedAreNew(b, bundle, bundle.claims, p, now);
    var all, some := AcceptedFrom(b, bundle, bundle.claims, p, now).value, AcceptedFrom(b, bundle, bundle.claims[..n + 1], p, now).value;
    if e :| e in some && e.id == c.id && (e == c || Stable(e) == Stable(c)) {
      assert e in all;
      d := e;
    } else {
      d := Find(b.claims, c.id).value;
    }
  }

  lemma {:induction false} ImportedAreThere(hashOf: Hash, contentHashOf: seq<Claim> -> Id, b: State, bundle: Bundle, p: Principal, now: Time, n: nat, later: Time)
    requires ImportIn(hashOf, contentHashOf, b, bundle, p, now).Ok? && n <= |bundle.claims|
    requires Placed(ImportIn(hashOf, contentHashOf, b, bundle, p, now).value.claims)
    ensures AcceptedFrom(ImportIn(hashOf, contentHashOf, b, bundle, p, now).value, bundle, bundle.claims[..n], p, later) == Ok([])
  {
    if n > 0 {
      ImportedAreThere(hashOf, contentHashOf, b, bundle, p, now, n - 1, later);
      assert bundle.claims[..n][..n - 1] == bundle.claims[..n - 1];
      var d := ImportedIsHeld(hashOf, contentHashOf, b, bundle, p, now, n - 1);
      FindHeld(ImportIn(hashOf, contentHashOf, b, bundle, p, now).value.claims, d);
    }
  }

  /** The last claim of an accepted bundle was taken, or something like it was there. */
  lemma ImportedIsFound(b: State, bundle: Bundle, incoming: seq<Claim>, p: Principal, now: Time)
    requires incoming != [] && AcceptedFrom(b, bundle, incoming, p, now).Ok?
    ensures var c := incoming[|incoming| - 1]; var taken := AcceptedFrom(b, bundle, incoming, p, now).value;
      && KeyOf(c) == ScopeOf(bundle)
      && ((exists d :: d in taken && d.id == c.id && (d == c || Stable(d) == Stable(c)))
          || (Find(b.claims, c.id).Some? && (Find(b.claims, c.id).value == c || Stable(Find(b.claims, c.id).value) == Stable(c))))
  {
    var c := incoming[|incoming| - 1];
    var front := AcceptedFrom(b, bundle, incoming[..|incoming| - 1], p, now).value;
    var taken := AcceptedFrom(b, bundle, incoming, p, now).value;
    if Among(front, c.id).Some? {
      assert Among(front, c.id).value in taken;
    } else if Find(b.claims, c.id).None? {
      assert taken[|taken| - 1] in taken && Stable(taken[|taken| - 1]) == Stable(c);
    }
  }
}
