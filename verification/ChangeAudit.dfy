/** The hash-chained change log of src/change-audit.ts. The hash of a payload is a parameter;
    snapshots are values, so a stored entry never aliases a live object. */
module ChangeAudit {
  import opened Basics

  datatype Op = Create | Update | Delete | Rollback

  datatype Payload<S> = Payload(
    id: nat, subject: Id, op: Op, actor: Id, trigger: string, at: Time, before: Option<S>, after: Option<S>, prevHash: Option<Id>)

  datatype Entry<S> = Entry(payload: Payload<S>, hash: Id)

  function Head<S>(entries: seq<Entry<S>>): Option<Id> {
    if entries == [] then None else Some(entries[|entries| - 1].hash)
  }

  predicate HasId<S>(entries: seq<Entry<S>>, id: nat) { exists i :: 0 <= i < |entries| && entries[i].payload.id == id }

  /** Every entry names its predecessor's hash and carries its own; no id repeats. */
  predicate ValidChain<S>(hashOf: Payload<S> -> Id, entries: seq<Entry<S>>) {
    entries == [] ||
    (var front, e := entries[..|entries| - 1], entries[|entries| - 1];
     && ValidChain(hashOf, front) && !HasId(front, e.payload.id)
     && e.payload.prevHash == Head(front) && hashOf(e.payload) == e.hash)
  }

  lemma {:induction false} PrefixIsValid<S>(hashOf: Payload<S> -> Id, entries: seq<Entry<S>>, n: nat)
    requires ValidChain(hashOf, entries) && n <= |entries|
    ensures ValidChain(hashOf, entries[..n])
    decreases |entries|
  {
    if n < |entries| {
      var front := entries[..|entries| - 1];
      PrefixIsValid(hashOf, front, n);
      assert front[..n] == entries[..n];
    } else {
      assert entries[..n] == entries;
    }
  }

  /** The i-th entry carries its own hash and that of its predecessor. */
  predicate Linked<S>(hashOf: Payload<S> -> Id, entries: seq<Entry<S>>, i: nat)
    requires i < |entries|
  {
    hashOf(entries[i].payload) == entries[i].hash && entries[i].payload.prevHash == if i == 0 then None else Some(entries[i - 1].hash)
  }

  predicate AllLinked<S>(hashOf: Payload<S> -> Id, entries: seq<Entry<S>>) { forall i :: 0 <= i < |entries| ==> Linked(hashOf, entries, i) }

  predicate OwnIds<S>(entries: seq<Entry<S>>) {
    forall i, j :: 0 <= i < j < |entries| ==> entries[i].payload.id != entries[j].payload.id
  }

  lemma OneMoreLink<S>(hashOf: Payload<S> -> Id, entries: seq<Entry<S>>, n: nat)
    requires |entries| == n + 1
    ensures AllLinked(hashOf, entries) <==> AllLinked(hashOf, entries[..n]) && Linked(hashOf, entries, n)
  {
    forall i | 0 <= i < n ensures Linked(hashOf, entries[..n], i) <==> Linked(hashOf, entries, i) {}
  }

  lemma OneMoreId<S>(entries: seq<Entry<S>>, n: nat)
    requires |entries| == n + 1
    ensures OwnIds(entries) <==> OwnIds(entries[..n]) && !HasId(entries[..n], entries[n].payload.id)
  {
    assert forall i :: 0 <= i < n ==> entries[..n][i] == entries[i];
  }

  /** A chain is valid exactly when each of its entries is linked and no two have the same id. */
  lemma {:induction false} ValidChainMeans<S>(hashOf: Payload<S> -> Id, entries: seq<Entry<S>>)
    ensures ValidChain(hashOf, entries) <==> AllLinked(hashOf, entries) && OwnIds(entries)
  {
    if entries != [] {
      var n := |entries| - 1;
      ValidChainMeans(hashOf, entries[..n]);
      OneMoreLink(hashOf, entries, n);
      OneMoreId(entries, n);
    }
  }

  lemma InvalidPrefix<S>(hashOf: Payload<S> -> Id, entries: seq<Entry<S>>, n: nat)
    requires n <= |entries| && !ValidChain(hashOf, entries[..n])
    ensures !ValidChain(hashOf, entries)
  {
    if ValidChain(hashOf, entries) { PrefixIsValid(hashOf, entries, n); }
  }

  /** `expectedHead` is None when the caller retained no head. */
  method VerifyChain<S(==)>(hashOf: Payload<S> -> Id, entries: seq<Entry<S>>, expectedHead: Option<Option<Id>>) returns (ok: bool)
    ensures ok <==> ValidChain(hashOf, entries) && (expectedHead.Some? ==> expectedHead.value == Head(entries))
  {
    var previous: Option<Id> := None;
    var ids: set<nat> := {};
    for k := 0 to |entries|
      invariant ids == set i | 0 <= i < k :: entries[i].payload.id
      invariant previous == Head(entries[..k]) && ValidChain(hashOf, entries[..k])
    {
      var e := entries[k];
      assert entries[..k + 1][..k] == entries[..k];
      if e.payload.id in ids || e.payload.prevHash != previous || hashOf(e.payload) != e.hash {
        assert e.payload.id in ids ==> HasId(entries[..k], e.payload.id);
        InvalidPrefix(hashOf, entries, k + 1);
        return false;
      }
      assert !HasId(entries[..k], e.payload.id);
      ids, previous := ids + {e.payload.id}, Some(e.hash);
    }
    assert entries[..|entries|] == entries;
    return expectedHead.None? || expectedHead.value == previous;
  }

  /** `append`: the new entry is chained to the head. */
  function Append<S>(hashOf: Payload<S> -> Id, entries: seq<Entry<S>>, p: Payload<S>): seq<Entry<S>> {
    var chained := p.(prevHash := Head(entries));
    entries + [Entry(chained, hashOf(chained))]
  }

  lemma AppendKeepsChain<S>(hashOf: Payload<S> -> Id, entries: seq<Entry<S>>, p: Payload<S>)
    requires ValidChain(hashOf, entries) && !HasId(entries, p.id)
    ensures ValidChain(hashOf, Append(hashOf, entries, p))
  {
    assert Append(hashOf, entries, p)[..|entries|] == entries;
  }

  /** Two different payloads with the same hash. */
  ghost predicate Collide<S>(hashOf: Payload<S> -> Id, p: Payload<S>, q: Payload<S>) { p != q && hashOf(p) == hashOf(q) }

  ghost predicate SomeCollision<S>(hashOf: Payload<S> -> Id, a: seq<Entry<S>>, b: seq<Entry<S>>) {
    exists i, j :: 0 <= i < |a| && 0 <= j < |b| && Collide(hashOf, a[i].payload, b[j].payload)
  }

  lemma LiftCollision<S>(hashOf: Payload<S> -> Id, a: seq<Entry<S>>, b: seq<Entry<S>>, m: nat, n: nat)
    requires m <= |a| && n <= |b| && SomeCollision(hashOf, a[..m], b[..n])
    ensures SomeCollision(hashOf, a, b)
  {
    var i, j :| 0 <= i < m && 0 <= j < n && Collide(hashOf, a[..m][i].payload, b[..n][j].payload);
    assert a[..m][i] == a[i] && b[..n][j] == b[j];
  }

  /** Two valid chains with equal heads are equal, or they exhibit a hash collision: with the
      head retained elsewhere, no entry can be changed, added or removed unnoticed. */
  lemma {:induction false} EqualHeadsMeanEqualChains<S>(hashOf: Payload<S> -> Id, a: seq<Entry<S>>, b: seq<Entry<S>>)
    requires ValidChain(hashOf, a) && ValidChain(hashOf, b) && Head(a) == Head(b)
    ensures a == b || SomeCollision(hashOf, a, b)
  {
    if a != [] && b != [] {
      var m, n := |a| - 1, |b| - 1;
      assert hashOf(a[m].payload) == hashOf(b[n].payload);
      if a[m].payload != b[n].payload {
        assert Collide(hashOf, a[m].payload, b[n].payload);
      } else {
        assert a == a[..m] + [a[m]] && b == b[..n] + [b[n]];
        EqualHeadsMeanEqualChains(hashOf, a[..m], b[..n]);
        if a[..m] != b[..n] { LiftCollision(hashOf, a, b, m, n); }
      }
    }
  }

  // ---------------------------------------------------------------- replay

  type Snapshots<S> = map<Id, S>

  function ApplyChange<S>(live: Snapshots<S>, subject: Id, after: Option<S>): Snapshots<S> {
    match after
    case Some(s) => live[subject := s]
    case None => live - {subject}
  }

  /** The last `after` of every subject. */
  function Replay<S>(entries: seq<Entry<S>>): Snapshots<S> {
    if entries == [] then map[]
    else
      var p := entries[|entries| - 1].payload;
      ApplyChange(Replay(entries[..|entries| - 1]), p.subject, p.after)
  }

  function SnapshotOf<S>(live: Snapshots<S>, subject: Id): Option<S> {
    if subject in live then Some(live[subject]) else None
  }

  /** Each entry's `before` is what the log itself had for that subject. */
  ghost predicate Continuous<S>(entries: seq<Entry<S>>) {
    entries == [] ||
    (var front, p := entries[..|entries| - 1], entries[|entries| - 1].payload;
     Continuous(front) && p.before == SnapshotOf(Replay(front), p.subject))
  }

  lemma AppendReplays<S>(hashOf: Payload<S> -> Id, entries: seq<Entry<S>>, p: Payload<S>)
    ensures Replay(Append(hashOf, entries, p)) == ApplyChange(Replay(entries), p.subject, p.after)
    ensures Continuous(entries) && p.before == SnapshotOf(Replay(entries), p.subject) ==> Continuous(Append(hashOf, entries, p))
  {
    assert Append(hashOf, entries, p)[..|entries|] == entries;
  }
}
