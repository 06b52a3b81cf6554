/** The governed claim store of src/brain.ts and its change log: claims live in per-scope
    histories, and every change of a claim is recorded before and after. Hashing is abstract,
    `append` does not throw, and claims always carry a tenant. */
module Brain {
  import opened Basics
  import opened ChangeAudit

  datatype Level = Public | Internal | Confidential | Private

  datatype Claim = Claim(
    id: Id, tenant: Id, owner: Id, scopeRef: Id, level: Level, content: string, version: nat, active: bool,
    createdAt: Time, updatedAt: Time)

  datatype ClaimInput = ClaimInput(tenant: Option<Id>, owner: Id, scopeRef: Id, level: Level, content: string)

  datatype Principal = Principal(id: Id, tenant: Id, isOwner: bool, isOperator: bool)

  datatype Action = Write | Retract

  datatype Grant = Grant(
    owner: Id, tenant: Id, subject: Id, scopeRef: Id, levels: seq<Level>, actions: set<Action>, expiresAt: Time, revoked: bool)

  datatype Key = Key(tenant: Id, owner: Id, scopeRef: Id)

  datatype Bundle = Bundle(owner: Id, tenant: Id, scopeRef: Id, claims: seq<Claim>, contentHash: Id)

  type Claims = map<Key, seq<Claim>>

  type Log = seq<Entry<Claim>>

  type Hash = Payload<Claim> -> Id

  datatype State = State(claims: Claims, grants: map<Id, Grant>, changes: Log)

  datatype Failure =
    | NotPermitted | ClaimNotFound | OnlyTheOwner | WrongContentHash | OutsideBundle | ConflictingHistory | UnknownChange | NoSnapshot

  function Rank(l: Level): nat {
    match l case Public => 0 case Internal => 1 case Confidential => 2 case Private => 3
  }

  function KeyOf(c: Claim): Key { Key(c.tenant, c.owner, c.scopeRef) }

  function History(claims: Claims, k: Key): seq<Claim> { if k in claims then claims[k] else [] }

  // ---------------------------------------------------------------- permissions

  predicate Covers(g: Grant, p: Principal, k: Key, level: Level, action: Action, now: Time) {
    && g.owner == k.owner && g.tenant == k.tenant && g.subject == p.id && g.scopeRef == k.scopeRef
    && !g.revoked && g.expiresAt > now && action in g.actions
    && exists i :: 0 <= i < |g.levels| && Rank(g.levels[i]) >= Rank(level)
  }

  /** `assertGrant` of the key's owner, tenant and scope. */
  predicate Permitted(grants: map<Id, Grant>, p: Principal, k: Key, level: Level, action: Action, now: Time) {
    p.tenant == k.tenant
    && ((p.id == k.owner && p.isOwner) || exists id :: id in grants && Covers(grants[id], p, k, level, action, now))
  }

  // ---------------------------------------------------------------- recording

  function OpOf(before: Option<Claim>, after: Option<Claim>): Op {
    if before.None? then Create else if after.None? then Delete else Update
  }

  /** `recordChange`; random entry ids never repeat, positions stand for them. */
  function Record(hashOf: Hash, log: Log, before: Option<Claim>, after: Option<Claim>, actor: Id, trigger: string, now: Time): Log
    requires before.Some? || after.Some?
  {
    var subject := if after.Some? then after.value.id else before.value.id;
    Append(hashOf, log, Payload(|log|, subject, OpOf(before, after), actor, trigger, now, before, after, None))
  }

  // ---------------------------------------------------------------- add and retract

  function Created(input: ClaimInput, k: Key, version: nat, id: Id, now: Time): Claim {
    Claim(id, k.tenant, k.owner, k.scopeRef, input.level, input.content, version, true, now, now)
  }

  function InputKey(input: ClaimInput, p: Principal): Key {
    Key(if input.tenant.Some? then input.tenant.value else p.tenant, input.owner, input.scopeRef)
  }

  function AddIn(hashOf: Hash, b: State, input: ClaimInput, p: Principal, id: Id, now: Time): Result<State, Failure> {
    var k := InputKey(input, p);
    if !Permitted(b.grants, p, k, input.level, Write, now) then Err(NotPermitted)
    else
      var claim := Created(input, k, |History(b.claims, k)| + 1, id, now);
      Ok(State(b.claims[k := History(b.claims, k) + [claim]], b.grants,
               Record(hashOf, b.changes, None, Some(claim), p.id, "brain.addClaim", now)))
  }

  function Retired(c: Claim, now: Time): Claim { c.(active := false, updatedAt := now) }

  /** Index of the first claim with this id, or the length. */
  function IndexOf(history: seq<Claim>, id: Id, onlyActive: bool): (k: nat)
    ensures k <= |history|
    ensures k < |history| ==> history[k].id == id && (onlyActive ==> history[k].active)
    ensures forall j :: 0 <= j < k ==> history[j].id != id || (onlyActive && !history[j].active)
  {
    if history == [] then 0
    else
      var k := IndexOf(history[..|history| - 1], id, onlyActive);
      var last := history[|history| - 1];
      if k < |history| - 1 || (last.id == id && (onlyActive ==> last.active)) then k else |history|
  }

  function RetractIn(hashOf: Hash, b: State, scopeRef: Id, id: Id, p: Principal, owner: Id, now: Time): Result<State, Failure> {
    var k := Key(p.tenant, owner, scopeRef);
    var history := History(b.claims, k);
    var i := IndexOf(history, id, false);
    if !Permitted(b.grants, p, k, if i < |history| then history[i].level else Private, Retract, now) then Err(NotPermitted)
    else if i == |history| then Err(ClaimNotFound)
    else
      var after := Retired(history[i], now);
      Ok(State(b.claims[k := history[i := after]], b.grants,
               Record(hashOf, b.changes, Some(history[i]), Some(after), p.id, "brain.retract", now)))
  }

  // ---------------------------------------------------------------- replace

  /** The first reason, in order, why a claim cannot be replaced. */
  function TargetError(b: State, k: Key, ids: seq<Id>, p: Principal, now: Time): Option<Failure> {
    if ids == [] then None
    else
      var front, history := TargetError(b, k, ids[..|ids| - 1], p, now), History(b.claims, k);
      var i := IndexOf(history, ids[|ids| - 1], true);
      if front.Some? then front
      else if i == |history| then Some(ClaimNotFound)
      else if !Permitted(b.grants, p, k, history[i].level, Retract, now) then Some(NotPermitted)
      else None
  }

  function RetireEach(history: seq<Claim>, ids: seq<Id>, now: Time): (r: seq<Claim>)
    ensures |r| == |history|
  {
    if ids == [] then history
    else
      var front, i := RetireEach(history, ids[..|ids| - 1], now), IndexOf(history, ids[|ids| - 1], true);
      if i == |history| then front else front[i := Retired(history[i], now)]
  }

  function RecordEach(hashOf: Hash, log: Log, history: seq<Claim>, ids: seq<Id>, actor: Id, now: Time): Log {
    if ids == [] then log
    else
      var front, i := RecordEach(hashOf, log, history, ids[..|ids| - 1], actor, now), IndexOf(history, ids[|ids| - 1], true);
      if i == |history| then front
      else Record(hashOf, front, Some(history[i]), Some(Retired(history[i], now)), actor, "brain.retract", now)
  }

  /** The named active claims are retracted and the new claim is stored; the log has the
      retractions first. Nothing changes when a claim is missing or not permitted. */
  function ReplaceIn(hashOf: Hash, b: State, scopeRef: Id, claimIds: seq<Id>, input: ClaimInput, p: Principal, owner: Id, id: Id, now: Time): Result<State, Failure> {
    var k, target, ids := Key(p.tenant, owner, scopeRef), InputKey(input, p), Distinct(claimIds);
    if !Permitted(b.grants, p, target, input.level, Write, now) then Err(NotPermitted)
    else if TargetError(b, k, ids, p, now).Some? then Err(TargetError(b, k, ids, p, now).value)
    else if ids == [] then AddIn(hashOf, b, input, p, id, now)
    else
      var history := History(b.claims, k);
      var retired := b.claims[k := RetireEach(history, ids, now)];
      var claim := Created(input, target, |History(retired, target)| + 1, id, now);
      var log := RecordEach(hashOf, b.changes, history, ids, p.id, now);
      Ok(State(retired[target := History(retired, target) + [claim]], b.grants,
               Record(hashOf, log, None, Some(claim), p.id, "brain.addClaim", now)))
  }

  // ---------------------------------------------------------------- import and delete

  predicate Held(claims: Claims, c: Claim) { KeyOf(c) in claims && c in claims[KeyOf(c)] }

  ghost function Find(claims: Claims, id: Id): Option<Claim> {
    if exists c :: Held(claims, c) && c.id == id
    then (var c :| Held(claims, c) && c.id == id; Some(c)) else None
  }

  /** What an import compares: everything but the version and the update time. */
  function Stable(c: Claim): Claim { c.(version := 0, updatedAt := 0) }

  function Among(claims: seq<Claim>, id: Id): Option<Claim> {
    var i := IndexOf(claims, id, false);
    if i < |claims| then Some(claims[i]) else None
  }

  function ScopeOf(bundle: Bundle): Key { Key(bundle.tenant, bundle.owner, bundle.scopeRef) }

  /** One claim of a bundle: refused, skipped as already there, or taken and renumbered. */
  function AcceptOne(b: State, bundle: Bundle, taken: seq<Claim>, held: Option<Claim>, c: Claim, p: Principal, now: Time): Result<seq<Claim>, Failure> {
    var k := ScopeOf(bundle);
    var existing := if Among(taken, c.id).Some? then Among(taken, c.id) else held;
    if KeyOf(c) != k then Err(OutsideBundle)
    else if existing.Some? then
      if existing.value != c && Stable(existing.value) != Stable(c) then Err(ConflictingHistory) else Ok(taken)
    else if !Permitted(b.grants, p, k, c.level, Write, now) then Err(NotPermitted)
    else Ok(taken + [c.(version := |History(b.claims, k)| + 1 + |taken|, updatedAt := now)])
  }

  /** The claims a bundle adds, or the reason it is refused as a whole. */
  ghost function AcceptedFrom(b: State, bundle: Bundle, incoming: seq<Claim>, p: Principal, now: Time): Result<seq<Claim>, Failure> {
    if incoming == [] then Ok([])
    else
      var c := incoming[|incoming| - 1];
      match AcceptedFrom(b, bundle, incoming[..|incoming| - 1], p, now)
      case Err(e) => Err(e)
      case Ok(taken) => AcceptOne(b, bundle, taken, Find(b.claims, c.id), c, p, now)
  }

  function RecordCreations(hashOf: Hash, log: Log, created: seq<Claim>, actor: Id, now: Time): Log {
    if created == [] then log
    else
      var n := |created| - 1;
      Record(hashOf, RecordCreations(hashOf, log, created[..n], actor, now), None, Some(created[n]), actor, "brain.importBundle", now)
  }

  ghost function ImportIn(hashOf: Hash, contentHashOf: seq<Claim> -> Id, b: State, bundle: Bundle, p: Principal, now: Time): Result<State, Failure> {
    if !p.isOwner || p.id != bundle.owner || p.tenant != bundle.tenant then Err(OnlyTheOwner)
    else if bundle.contentHash != contentHashOf(bundle.claims) then Err(WrongContentHash)
    else
      match AcceptedFrom(b, bundle, bundle.claims, p, now)
      case Err(e) => Err(e)
      case Ok(taken) =>
        var k := ScopeOf(bundle);
        Ok(State(if taken == [] then b.claims else b.claims[k := History(b.claims, k) + taken], b.grants,
                 RecordCreations(hashOf, b.changes, taken, p.id, now)))
  }

  function RecordDeletions(hashOf: Hash, log: Log, deleted: seq<Claim>, actor: Id, now: Time): Log {
    if deleted == [] then log
    else
      var n := |deleted| - 1;
      Record(hashOf, RecordDeletions(hashOf, log, deleted[..n], actor, now), Some(deleted[n]), None, actor, "brain.deleteScope", now)
  }

  predicate OfScope(g: Grant, p: Principal, scopeRef: Id) { g.scopeRef == scopeRef && g.owner == p.id && g.tenant == p.tenant }

  function DeleteScopeIn(hashOf: Hash, b: State, scopeRef: Id, p: Principal, now: Time): Result<State, Failure> {
    var k := Key(p.tenant, p.id, scopeRef);
    if !p.isOwner then Err(OnlyTheOwner)
    else Ok(State(b.claims - {k}, map id | id in b.grants && !OfScope(b.grants[id], p, scopeRef) :: b.grants[id],
                  RecordDeletions(hashOf, b.changes, History(b.claims, k), p.id, now)))
  }

  // ---------------------------------------------------------------- rollback

  function Without(history: seq<Claim>, id: Id): seq<Claim> {
    if history == [] then []
    else
      var front, last := Without(history[..|history| - 1], id), history[|history| - 1];
      if last.id == id then front else front + [last]
  }

  /** Stable insertion by version. */
  function InsertByVersion(sorted: seq<Claim>, c: Claim): seq<Claim> {
    if sorted == [] || sorted[|sorted| - 1].version <= c.version then sorted + [c]
    else InsertByVersion(sorted[..|sorted| - 1], c) + [sorted[|sorted| - 1]]
  }

  function SortByVersion(history: seq<Claim>): seq<Claim> {
    if history == [] then []
    else InsertByVersion(SortByVersion(history[..|history| - 1]), history[|history| - 1])
  }

  function EntryIndex(log: Log, id: nat): (k: nat)
    ensures k <= |log|
    ensures k < |log| ==> log[k].payload.id == id
    ensures forall j :: 0 <= j < k ==> log[j].payload.id != id
  {
    if log == [] then 0
    else
      var k := EntryIndex(log[..|log| - 1], id);
      if k < |log| - 1 || log[|log| - 1].payload.id == id then k else |log|
  }

  function FirstSnapshot(log: Log, subject: Id): Option<Claim> {
    if log == [] then None
    else
      var front, p := FirstSnapshot(log[..|log| - 1], subject), log[|log| - 1].payload;
      if front.Some? || p.subject != subject then front
      else if p.before.Some? then p.before else p.after
  }

  /** The snapshot that decides who may roll an entry back. */
  function SubjectOf(log: Log, p: Payload<Claim>): Option<Claim> {
    if p.before.Some? then p.before else if p.after.Some? then p.after else FirstSnapshot(log, p.subject)
  }

  predicate MayRollBack(p: Principal, subject: Claim) {
    p.isOperator || (p.isOwner && subject.owner == p.id && subject.tenant == p.tenant)
  }

  function Wiped(claims: Claims, id: Id): Claims { map k | k in claims :: Without(claims[k], id) }

  function Restored(claims: Claims, id: Id, snapshot: Option<Claim>): Claims {
    var wiped := Wiped(claims, id);
    match snapshot
    case None => wiped
    case Some(c) => wiped[KeyOf(c) := SortByVersion(History(wiped, KeyOf(c)) + [c])]
  }

  ghost function RollbackIn(hashOf: Hash, b: State, entryId: nat, p: Principal, now: Time): Result<State, Failure> {
    var i := EntryIndex(b.changes, entryId);
    if i == |b.changes| then Err(UnknownChange)
    else
      var e := b.changes[i].payload;
      var subject := SubjectOf(b.changes, e);
      if subject.None? then Err(NoSnapshot)
      else if !MayRollBack(p, subject.value) then Err(NotPermitted)
      else
        var entry := Payload(|b.changes|, e.subject, Rollback, p.id, "rollback", now, Find(b.claims, e.subject), e.before, None);
        Ok(State(Restored(b.claims, e.subject, e.before), b.grants, Append(hashOf, b.changes, entry)))
  }

  // ---------------------------------------------------------------- the store

  ghost predicate DistinctIds(history: seq<Claim>) {
    forall i, j :: 0 <= i < j < |history| ==> history[i].id != history[j].id
  }

  /** Every claim lies in its own history, and no id is held twice. */
  ghost predicate Placed(claims: Claims) {
    && (forall k :: k in claims ==> DistinctIds(claims[k]))
    && (forall k, c :: k in claims && c in claims[k] ==> KeyOf(c) == k)
    && (forall c, d :: Held(claims, c) && Held(claims, d) && c.id == d.id ==> c == d)
  }

  class GovernedBrain {
    var claims: Claims
    var grants: map<Id, Grant>
    var changes: Log
    const hashOf: Hash
    const contentHashOf: seq<Claim> -> Id

    ghost function Now(): State
      reads this
    {
      State(claims, grants, changes)
    }

    constructor (hashOf: Hash, contentHashOf: seq<Claim> -> Id)
      ensures Now() == State(map[], map[], []) && this.hashOf == hashOf && this.contentHashOf == contentHashOf
    {
      this.hashOf, this.contentHashOf := hashOf, contentHashOf;
      claims, grants, changes := map[], map[], [];
    }

    method RecordChange(before: Option<Claim>, after: Option<Claim>, actor: Id, trigger: string, now: Time)
      requires before.Some? || after.Some?
      modifies this`changes
      ensures changes == Record(hashOf, old(changes), before, after, actor, trigger, now)
      ensures var n := |old(changes)|;
        && |changes| == n + 1 && changes[..n] == old(changes)
        && var e := changes[n];
          && e.payload.prevHash == Head(old(changes)) && e.hash == hashOf(e.payload)
          && e.payload.before == before && e.payload.after == after && e.payload.actor == actor && e.payload.at == now
          && (e.payload.op.Create? <==> before.None?) && (e.payload.op.Delete? <==> after.None?) && !e.payload.op.Rollback?
          && (after.Some? ==> e.payload.subject == after.value.id) && (after.None? ==> e.payload.subject == before.value.id)
      ensures ValidChain(hashOf, old(changes)) && !HasId(old(changes), |old(changes)|) ==> ValidChain(hashOf, changes)
    {
      var subject, op := before, Update;
      if after.Some? { subject := after; }
      if before.None? { op := Create; } else if after.None? { op := Delete; }
      var payload := Payload(|changes|, subject.value.id, op, actor, trigger, now, before, after, Head(changes));
      changes := changes + [Entry(payload, hashOf(payload))];
      assert changes[..|old(changes)|] == old(changes);
    }

    method AddClaim(input: ClaimInput, p: Principal, freshId: Id, now: Time) returns (error: Option<Failure>)
      modifies this
      ensures var next := AddIn(hashOf, old(Now()), input, p, freshId, now);
        if next.Ok? then error == None && Now() == next.value else error == Some(next.error) && Now() == old(Now())
    {
      var k := InputKey(input, p);
      if !Permitted(grants, p, k, input.level, Write, now) { return Some(NotPermitted); }
      var history := History(claims, k);
      var claim := Created(input, k, |history| + 1, freshId, now);
      RecordChange(None, Some(claim), p.id, "brain.addClaim", now);
      claims := claims[k := history + [claim]];
      return None;
    }

    method RetractClaim(scopeRef: Id, id: Id, p: Principal, owner: Id, now: Time) returns (error: Option<Failure>)
      modifies this
      ensures var next := RetractIn(hashOf, old(Now()), scopeRef, id, p, owner, now);
        if next.Ok? then error == None && Now() == next.value else error == Some(next.error) && Now() == old(Now())
    {
      var k := Key(p.tenant, owner, scopeRef);
      var history := History(claims, k);
      var i := IndexOf(history, id, false);
      if !Permitted(grants, p, k, if i < |history| then history[i].level else Private, Retract, now) { return Some(NotPermitted); }
      if i == |history| { return Some(ClaimNotFound); }
      var after := Retired(history[i], now);
      RecordChange(Some(history[i]), Some(after), p.id, "brain.retract", now);
      claims := claims[k := history[i := after]];
      return None;
    }

    method CheckTargets(k: Key, ids: seq<Id>, p: Principal, now: Time) returns (error: Option<Failure>)
      ensures error == TargetError(Now(), k, ids, p, now)
    {
      var history := History(claims, k);
      for j := 0 to |ids|
        invariant TargetError(Now(), k, ids[..j], p, now).None?
      {
        assert ids[..j + 1][..j] == ids[..j];
        var i := IndexOf(history, ids[j], true);
        if i == |history| || !Permitted(grants, p, k, history[i].level, Retract, now) {
          FirstTargetError(Now(), k, ids, j + 1, p, now);
          return Some(if i == |history| then ClaimNotFound else NotPermitted);
        }
      }
      assert ids[..|ids|] == ids;
      return None;
    }

    method RetireTargets(k: Key, ids: seq<Id>, now: Time)
      modifies this`claims
      ensures claims == old(claims)[k := RetireEach(History(old(claims), k), ids, now)]
    {
      var history := History(claims, k);
      var retired := history;
      for j := 0 to |ids|
        invariant retired == RetireEach(history, ids[..j], now)
      {
        assert ids[..j + 1][..j] == ids[..j];
        var i := IndexOf(history, ids[j], true);
        if i < |history| { retired := retired[i := Retired(history[i], now)]; }
      }
      assert ids[..|ids|] == ids;
      claims := claims[k := retired];
    }

    method RecordRetractions(history: seq<Claim>, ids: seq<Id>, actor: Id, now: Time)
      modifies this`changes
      ensures changes == RecordEach(hashOf, old(changes), history, ids, actor, now)
    {
      for j := 0 to |ids|
        invariant changes == RecordEach(hashOf, old(changes), history, ids[..j], actor, now)
      {
        assert ids[..j + 1][..j] == ids[..j];
        var i := IndexOf(history, ids[j], true);
        if i < |history| { RecordChange(Some(history[i]), Some(Retired(history[i], now)), actor, "brain.retract", now); }
      }
      assert ids[..|ids|] == ids;
    }

    method ReplaceClaims(scopeRef: Id, claimIds: seq<Id>, input: ClaimInput, p: Principal, owner: Id, freshId: Id, now: Time)
      returns (error: Option<Failure>)
      modifies this
      ensures var next := ReplaceIn(hashOf, old(Now()), scopeRef, claimIds, input, p, owner, freshId, now);
        if next.Ok? then error == None && Now() == next.value else error == Some(next.error) && Now() == old(Now())
    {
      var k, target, ids := Key(p.tenant, owner, scopeRef), InputKey(input, p), Distinct(claimIds);
      if !Permitted(grants, p, target, input.level, Write, now) { return Some(NotPermitted); }
      error := CheckTargets(k, ids, p, now);
      if error.Some? { return; }
      if ids == [] {
        error := AddClaim(input, p, freshId, now);
        return;
      }
      var history := History(claims, k);
      RetireTargets(k, ids, now);
      var claim := Created(input, target, |History(claims, target)| + 1, freshId, now);
      claims := claims[target := History(claims, target) + [claim]];
      RecordRetractions(history, ids, p.id, now);
      RecordChange(None, Some(claim), p.id, "brain.addClaim", now);
    }

    /** All held claims by id. */
    method ById() returns (byId: map<Id, Claim>)
      requires Placed(claims)
      ensures forall id :: (id in byId <==> Find(claims, id).Some?) && (id in byId ==> Find(claims, id) == Some(byId[id]))
    {
      byId := map[];
      var keys := claims.Keys;
      while keys != {}
        invariant keys <= claims.Keys
        invariant forall c :: Held(claims, c) && KeyOf(c) !in keys ==> c.id in byId && byId[c.id] == c
        invariant forall id :: id in byId ==> Held(claims, byId[id]) && byId[id].id == id
        decreases |keys|
      {
        var k :| k in keys;
        var history := claims[k];
        for i := 0 to |history|
          invariant forall c :: Held(claims, c) && KeyOf(c) !in keys ==> c.id in byId && byId[c.id] == c
          invariant forall j :: 0 <= j < i ==> history[j].id in byId && byId[history[j].id] == history[j]
          invariant forall id :: id in byId ==> Held(claims, byId[id]) && byId[id].id == id
        {
          assert history[i] in claims[k] && Held(claims, history[i]);
          byId := byId[history[i].id := history[i]];
        }
        keys := keys - {k};
      }
    }

    method TakeClaim(bundle: Bundle, taken: seq<Claim>, byId: map<Id, Claim>, c: Claim, p: Principal, now: Time)
      returns (answer: Result<seq<Claim>, Failure>)
      ensures answer == AcceptOne(State(claims, grants, changes), bundle, taken, if c.id in byId then Some(byId[c.id]) else None, c, p, now)
    {
      var k := ScopeOf(bundle);
      if KeyOf(c) != k { return Err(OutsideBundle); }
      var i := IndexOf(taken, c.id, false);
      if i < |taken| || c.id in byId {
        var existing := if i < |taken| then taken[i] else byId[c.id];
        return if existing != c && Stable(existing) != Stable(c) then Err(ConflictingHistory) else Ok(taken);
      }
      if !Permitted(grants, p, k, c.level, Write, now) { return Err(NotPermitted); }
      return Ok(taken + [c.(version := |History(claims, k)| + 1 + |taken|, updatedAt := now)]);
    }

    method AcceptClaims(bundle: Bundle, p: Principal, now: Time) returns (answer: Result<seq<Claim>, Failure>)
      requires Placed(claims)
      ensures answer == AcceptedFrom(Now(), bundle, bundle.claims, p, now)
    {
      var byId := ById();
      var taken: seq<Claim> := [];
      for j := 0 to |bundle.claims|
        invariant AcceptedFrom(Now(), bundle, bundle.claims[..j], p, now) == Ok(taken)
      {
        assert bundle.claims[..j + 1][..j] == bundle.claims[..j];
        assert Find(claims, bundle.claims[j].id) == if bundle.claims[j].id in byId then Some(byId[bundle.claims[j].id]) else None;
        answer := TakeClaim(bundle, taken, byId, bundle.claims[j], p, now);
        if answer.Err? {
          FirstRefusal(Now(), bundle, bundle.claims, j + 1, p, now);
          return;
        }
        taken := answer.value;
      }
      assert bundle.claims[..|bundle.claims|] == bundle.claims;
      return Ok(taken);
    }

    method ImportBundle(bundle: Bundle, p: Principal, now: Time) returns (error: Option<Failure>)
      requires Placed(claims)
      modifies this
      ensures var next := ImportIn(hashOf, contentHashOf, old(Now()), bundle, p, now);
        if next.Ok? then error == None && Now() == next.value else error == Some(next.error) && Now() == old(Now())
    {
      if !p.isOwner || p.id != bundle.owner || p.tenant != bundle.tenant { return Some(OnlyTheOwner); }
      if bundle.contentHash != contentHashOf(bundle.claims) { return Some(WrongContentHash); }
      var k := ScopeOf(bundle);
      var answer := AcceptClaims(bundle, p, now);
      if answer.Err? { return Some(answer.error); }
      var taken := answer.value;
      for j := 0 to |taken|
        invariant claims == old(claims) && grants == old(grants)
        invariant changes == RecordCreations(hashOf, old(changes), taken[..j], p.id, now)
      {
        assert taken[..j + 1][..j] == taken[..j];
        RecordChange(None, Some(taken[j]), p.id, "brain.importBundle", now);
      }
      assert taken[..|taken|] == taken;
      if |taken| > 0 { claims := claims[k := History(claims, k) + taken]; }
      return None;
    }

    method DeleteScope(scopeRef: Id, p: Principal, now: Time) returns (error: Option<Failure>)
      modifies this
      ensures var next := DeleteScopeIn(hashOf, old(Now()), scopeRef, p, now);
        if next.Ok? then error == None && Now() == next.value else error == Some(next.error) && Now() == old(Now())
    {
      if !p.isOwner { return Some(OnlyTheOwner); }
      var k := Key(p.tenant, p.id, scopeRef);
      var history := History(claims, k);
      for j := 0 to |history|
        invariant claims == old(claims) && grants == old(grants)
        invariant changes == RecordDeletions(hashOf, old(changes), history[..j], p.id, now)
      {
        assert history[..j + 1][..j] == history[..j];
        RecordChange(Some(history[j]), None, p.id, "brain.deleteScope", now);
      }
      assert history[..|history|] == history;
      claims := claims - {k};
      grants := map id | id in grants && !OfScope(grants[id], p, scopeRef) :: grants[id];
      return None;
    }

    method RollbackChange(entryId: nat, p: Principal, now: Time) returns (error: Option<Failure>)
      requires Placed(claims)
      modifies this
      ensures var next := RollbackIn(hashOf, old(Now()), entryId, p, now);
        if next.Ok? then error == None && Now() == next.value else error == Some(next.error) && Now() == old(Now())
    {
      var i := EntryIndex(changes, entryId);
      if i == |changes| { return Some(UnknownChange); }
      var e := changes[i].payload;
      var subject := SubjectOf(changes, e);
      if subject.None? { return Some(NoSnapshot); }
      if !MayRollBack(p, subject.value) { return Some(NotPermitted); }
      var byId := ById();
      var before := if e.subject in byId then Some(byId[e.subject]) else None;
      changes := Append(hashOf, changes, Payload(|changes|, e.subject, Rollback, p.id, "rollback", now, before, e.before, None));
      claims := map k | k in claims :: Without(claims[k], e.subject);
      if e.before.Some? {
        var k := KeyOf(e.before.value);
        claims := claims[k := SortByVersion(History(claims, k) + [e.before.value])];
      }
      return None;
    }
  }

  lemma {:induction false} FirstTargetError(b: State, k: Key, ids: seq<Id>, n: nat, p: Principal, now: Time)
    requires n <= |ids| && TargetError(b, k, ids[..n], p, now).Some?
    ensures TargetError(b, k, ids, p, now) == TargetError(b, k, ids[..n], p, now)
    decreases |ids| - n
  {
    if n < |ids| {
      assert ids[..n + 1][..n] == ids[..n];
      FirstTargetError(b, k, ids, n + 1, p, now);
    } else {
      assert ids[..n] == ids;
    }
  }

  lemma {:induction false} FirstRefusal(b: State, bundle: Bundle, incoming: seq<Claim>, n: nat, p: Principal, now: Time)
    requires n <= |incoming| && AcceptedFrom(b, bundle, incoming[..n], p, now).Err?
    ensures AcceptedFrom(b, bundle, incoming, p, now) == AcceptedFrom(b, bundle, incoming[..n], p, now)
    decreases |incoming| - n
  {
    if n < |incoming| {
      assert incoming[..n + 1][..n] == incoming[..n];
      FirstRefusal(b, bundle, incoming, n + 1, p, now);
    } else {
      assert incoming[..n] == incoming;
    }
  }
}
