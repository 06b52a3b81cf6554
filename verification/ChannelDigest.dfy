/** The delivery gate of src/channel-digest.ts for one room: a sliding-window rate limit on
    immediate bot deliveries, and digests that acknowledge queued events, all derived from an
    append-only log. Every method runs under the room lock. Event ids are log positions. */
module ChannelDigest {
  import opened Basics

  const WINDOW: Time := 600000

  const MINUTE: Time := 60000

  const RATE: nat := 6

  datatype Attention = Human | DecisionNeeded | Progress | Message

  datatype Mode = Immediate | Queued

  datatype Delivery = Delivery(mode: Mode, at: Time)

  datatype Digest = Digest(eventIds: seq<nat>, minutes: nat)

  /** Clients never use the `channel-digest:` prefix of a digest's idempotency key. */
  datatype Key = ClientKey(text: string) | DigestKey(first: nat)

  datatype Draft = Draft(
    key: Key, attention: Attention, retract: bool, classification: Id, audience: Id, content: string, createdAt: Time,
    delivery: Option<Delivery>, digest: Option<Digest>)

  datatype Event = Event(id: nat, draft: Draft)

  type Log = seq<Event>

  // ---------------------------------------------------------------- the rate gate

  /** Messages published before the rule existed still occupy their part of the window. */
  predicate Legacy(d: Draft) { d.delivery.None? && !d.retract && (d.attention.Message? || d.attention.Progress?) }

  predicate Occupies(d: Draft) { (d.delivery.Some? && d.delivery.value.mode.Immediate?) || Legacy(d) }

  function At(d: Draft): Time { if d.delivery.Some? then d.delivery.value.at else d.createdAt }

  predicate InWindow(d: Draft, now: Time) { Occupies(d) && now - WINDOW < At(d) <= now }

  function Count(log: Log, now: Time): nat {
    if log == [] then 0
    else Count(log[..|log| - 1], now) + (if InWindow(log[|log| - 1].draft, now) then 1 else 0)
  }

  predicate RateAvailable(log: Log, now: Time) { Count(log, now) < RATE }

  method ChannelRateAvailable(log: Log, now: Time) returns (available: bool)
    ensures available <==> RateAvailable(log, now)
  {
    var n := 0;
    for i := 0 to |log|
      invariant n == Count(log[..i], now)
    {
      assert log[..i + 1][..i] == log[..i];
      if InWindow(log[i].draft, now) { n := n + 1; }
    }
    assert log[..|log|] == log;
    return n < RATE;
  }

  // ---------------------------------------------------------------- appending

  predicate HasKey(log: Log, key: Key) { exists i :: 0 <= i < |log| && log[i].draft.key == key }

  /** A repeated idempotency key appends nothing. */
  function Appended(log: Log, d: Draft): Log {
    if HasKey(log, d.key) then log else log + [Event(|log|, d)]
  }

  /** Human, decision and retraction events pass the gate undelivered by it. */
  predicate Ungated(d: Draft) { d.attention.Human? || d.attention.DecisionNeeded? || d.retract }

  function Gated(log: Log, d: Draft, now: Time): Draft {
    if Ungated(d) then d
    else d.(delivery := Some(Delivery(if d.attention.Progress? || !RateAvailable(log, now) then Queued else Immediate, now)))
  }

  // ---------------------------------------------------------------- the digest

  function Acknowledged(log: Log): set<nat> {
    if log == [] then {}
    else
      var d := log[|log| - 1].draft.digest;
      Acknowledged(log[..|log| - 1]) + (if d.Some? then set x | x in d.value.eventIds else {})
  }

  predicate IsQueued(d: Draft) { d.delivery.Some? && d.delivery.value.mode.Queued? }

  function PendingIn(log: Log, done: set<nat>): seq<Event> {
    if log == [] then []
    else
      var rest, e := PendingIn(log[..|log| - 1], done), log[|log| - 1];
      if IsQueued(e.draft) && e.id !in done then rest + [e] else rest
  }

  function Pending(log: Log): seq<Event> { PendingIn(log, Acknowledged(log)) }

  predicate SameAudience(a: Draft, b: Draft) { a.classification == b.classification && a.audience == b.audience }

  /** The ids of the pending events that share the first one's classification and audience. */
  function Batch(pending: seq<Event>, first: Draft): seq<nat> {
    if pending == [] then []
    else
      var rest, e := Batch(pending[..|pending| - 1], first), pending[|pending| - 1];
      if SameAudience(e.draft, first) then rest + [e.id] else rest
  }

  function LastDigestAt(log: Log): Time {
    if log == [] then 0
    else if log[|log| - 1].draft.digest.Some? then log[|log| - 1].draft.createdAt
    else LastDigestAt(log[..|log| - 1])
  }

  function DigestDraft(first: Event, eventIds: seq<nat>, now: Time, minutes: nat): Draft {
    Draft(DigestKey(first.id), Message, false, first.draft.classification, first.draft.audience, "merged", now,
          Some(Delivery(Immediate, now)), Some(Digest(eventIds, minutes)))
  }

  predicate Due(log: Log, now: Time, minutes: nat) {
    && RateAvailable(log, now) && Pending(log) != []
    && now - Max(At(Pending(log)[0].draft), LastDigestAt(log)) >= minutes * MINUTE
  }

  function Flushed(log: Log, now: Time, minutes: nat): Log {
    if !Due(log, now, minutes) then log
    else
      var first := Pending(log)[0];
      Appended(log, DigestDraft(first, Batch(Pending(log), first.draft), now, minutes))
  }

  class ChannelDigestDelivery {
    var events: Log

    constructor ()
      ensures events == []
    {
      events := [];
    }

    method Append(d: Draft)
      modifies this
      ensures events == Appended(old(events), d)
    {
      if HasKey(events, d.key) { return; }
      events := events + [Event(|events|, d)];
    }

    method Write(d: Draft, now: Time)
      modifies this
      ensures events == Appended(old(events), Gated(old(events), d, now))
    {
      if d.attention.Human? || d.attention.DecisionNeeded? || d.retract {
        Append(d);
        return;
      }
      var available := ChannelRateAvailable(events, now);
      var mode := if d.attention.Progress? || !available then Queued else Immediate;
      Append(d.(delivery := Some(Delivery(mode, now))));
    }

    /** One room's share of the pump. */
    method Flush(now: Time, minutes: nat) returns (sent: nat)
      modifies this
      ensures events == Flushed(old(events), now, minutes)
      ensures sent == if Due(old(events), now, minutes) then 1 else 0
    {
      var available := ChannelRateAvailable(events, now);
      if !available { return 0; }
      var done := Acknowledged(events);
      var pending := PendingIn(events, done);
      if pending == [] { return 0; }
      var first := pending[0];
      var since := Max(At(first.draft), LastDigestAt(events));
      if now - since < minutes * MINUTE { return 0; }
      var eventIds := Batch(pending, first.draft);
      Append(DigestDraft(first, eventIds, now, minutes));
      return 1;
    }
  }

  // ---------------------------------------------------------------- runs

  datatype Step = WriteStep(d: Draft, now: Time) | FlushStep(now: Time, minutes: nat)

  /** What a caller may hand to `write`. */
  predicate FromClient(s: Step) { s.WriteStep? ==> s.d.key.ClientKey? && s.d.delivery.None? && s.d.digest.None? }

  function Next(log: Log, s: Step): Log {
    match s
    case WriteStep(d, now) => Appended(log, Gated(log, d, now))
    case FlushStep(now, minutes) => Flushed(log, now, minutes)
  }

  function Run(log: Log, steps: seq<Step>): Log {
    if steps == [] then log else Next(Run(log, steps[..|steps| - 1]), steps[|steps| - 1])
  }

  // ---------------------------------------------------------------- the rate limit

  /** The clock never runs backwards: no occupied instant of the log lies after `now`. */
  ghost predicate Past(log: Log, now: Time) {
    forall i :: 0 <= i < |log| && Occupies(log[i].draft) ==> At(log[i].draft) <= now
  }

  ghost predicate Limited(log: Log) { forall t :: Count(log, t) <= RATE }

  lemma {:induction false} LaterWindowsHoldLess(log: Log, now: Time, t: Time)
    requires Past(log, now) && now <= t
    ensures Count(log, t) <= Count(log, now)
  {
    if log != [] {
      assert forall i :: 0 <= i < |log| - 1 ==> log[..|log| - 1][i] == log[i];
      LaterWindowsHoldLess(log[..|log| - 1], now, t);
    }
  }

  lemma AppendingCounts(log: Log, e: Event, t: Time)
    ensures Count(log + [e], t) == Count(log, t) + if InWindow(e.draft, t) then 1 else 0
  {
    assert (log + [e])[..|log|] == log;
  }

  lemma AppendStaysLimited(log: Log, d: Draft, now: Time)
    requires Limited(log) && Past(log, now)
    requires Occupies(d) ==> At(d) == now && RateAvailable(log, now)
    ensures Limited(Appended(log, d)) && Past(Appended(log, d), now)
  {
    if !HasKey(log, d.key) {
      forall t ensures Count(Appended(log, d), t) <= RATE {
        AppendingCounts(log, Event(|log|, d), t);
        if Occupies(d) && now <= t { LaterWindowsHoldLess(log, now, t); }
      }
    }
  }

  ghost predicate Monotone(steps: seq<Step>) {
    forall i, j :: 0 <= i <= j < |steps| ==> steps[i].now <= steps[j].now
  }

  lemma StepStaysLimited(log: Log, s: Step)
    requires Limited(log) && Past(log, s.now) && FromClient(s)
    ensures Limited(Next(log, s)) && Past(Next(log, s), s.now)
  {
    match s
    case WriteStep(d, now) => AppendStaysLimited(log, Gated(log, d, now), now);
    case FlushStep(now, minutes) =>
      if Due(log, now, minutes) {
        var first := Pending(log)[0];
        AppendStaysLimited(log, DigestDraft(first, Batch(Pending(log), first.draft), now, minutes), now);
      }
  }

  /** With a clock that never runs backwards, no ten-minute window of any run holds more than
      six immediate bot deliveries, digests and messages of before the rule included. */
  lemma {:induction false} NoWindowExceedsTheRate(log: Log, steps: seq<Step>)
    requires Limited(log) && Monotone(steps)
    requires forall i :: 0 <= i < |steps| ==> Past(log, steps[i].now) && FromClient(steps[i])
    ensures Limited(Run(log, steps))
    ensures forall now :: Past(log, now) && (steps != [] ==> steps[|steps| - 1].now <= now) ==> Past(Run(log, steps), now)
  {
    if steps != [] {
      var n := |steps| - 1;
      assert forall i :: 0 <= i < n ==> steps[..n][i] == steps[i];
      NoWindowExceedsTheRate(log, steps[..n]);
      StepStaysLimited(Run(log, steps[..n]), steps[n]);
    }
  }

  // ---------------------------------------------------------------- who is delayed

  /** People, decisions and retractions are never held back, progress always is, and only
      messages and digests are delivered at once. */
  predicate Delivers(d: Draft) {
    match d.key
    case DigestKey(_) => d.delivery.Some? && d.delivery.value.mode.Immediate?
    case ClientKey(_) =>
      && (d.delivery.None? <==> Ungated(d))
      && (d.attention.Progress? && !d.retract ==> IsQueued(d))
      && (d.delivery.Some? && d.delivery.value.mode.Immediate? ==> d.attention.Message?)
  }

  lemma {:induction false} EveryRunDelivers(steps: seq<Step>)
    requires forall i :: 0 <= i < |steps| ==> FromClient(steps[i])
    ensures forall i :: 0 <= i < |Run([], steps)| ==> Delivers(Run([], steps)[i].draft)
  {
    if steps != [] {
      var n := |steps| - 1;
      assert forall i :: 0 <= i < n ==> steps[..n][i] == steps[i];
      EveryRunDelivers(steps[..n]);
    }
  }

  // ---------------------------------------------------------------- acknowledgements

  ghost predicate Acknowledges(log: Log, i: nat, x: nat) {
    i < |log| && log[i].draft.digest.Some? && x in log[i].draft.digest.value.eventIds
  }

  predicate Increasing(ids: seq<nat>) { forall i, j :: 0 <= i < j < |ids| ==> ids[i] < ids[j] }

  /** A digest acknowledges, once each, earlier queued events of its own classification and audience. */
  ghost predicate DigestIsSound(log: Log, i: nat)
    requires i < |log|
  {
    var d := log[i].draft;
    d.digest.Some? ==>
      && d.digest.value.eventIds != [] && Increasing(d.digest.value.eventIds)
      && (forall x: nat :: x in d.digest.value.eventIds ==> x < i && IsQueued(log[x].draft) && SameAudience(log[x].draft, d))
      && (var first := d.digest.value.eventIds[0];
          first < i && d.key == DigestKey(first) && At(log[first].draft) + d.digest.value.minutes * MINUTE <= d.createdAt)
      && d.delivery == Some(Delivery(Immediate, d.createdAt))
  }

  ghost predicate ByPosition(log: Log) { forall i :: 0 <= i < |log| ==> log[i].id == i }

  ghost predicate AcknowledgedOnce(log: Log) {
    forall i, j, x :: Acknowledges(log, i, x) && Acknowledges(log, j, x) ==> i == j
  }

  /** Digest j comes at least its own recorded minutes after digest i. */
  predicate Apart(log: Log, i: nat, j: nat)
    requires i < j < |log|
  {
    log[i].draft.digest.Some? && log[j].draft.digest.Some? ==>
      log[i].draft.createdAt + log[j].draft.digest.value.minutes * MINUTE <= log[j].draft.createdAt
  }

  ghost predicate Spaced(log: Log) { forall i, j :: 0 <= i < j < |log| ==> Apart(log, i, j) }

  ghost predicate DigestInv(log: Log) {
    && ByPosition(log) && AcknowledgedOnce(log) && Spaced(log)
    && (forall i :: 0 <= i < |log| ==> DigestIsSound(log, i))
    && (forall i :: 0 <= i < |log| && log[i].draft.key.DigestKey? ==> log[i].draft.digest.Some?)
  }

  lemma {:induction false} AcknowledgedMeans(log: Log, x: nat)
    ensures x in Acknowledged(log) <==> exists i :: Acknowledges(log, i, x)
  {
    if log != [] {
      var n := |log| - 1;
      AcknowledgedMeans(log[..n], x);
      assert forall i :: 0 <= i < n ==> (Acknowledges(log[..n], i, x) <==> Acknowledges(log, i, x));
      if x in Acknowledged(log[..n]) {
        var i :| Acknowledges(log[..n], i, x);
        assert Acknowledges(log, i, x);
      } else if x in Acknowledged(log) {
        assert Acknowledges(log, n, x);
      }
      if i: nat :| Acknowledges(log, i, x) {
        if i < n { assert Acknowledges(log[..n], i, x); }
      }
    }
  }

  /** Pending events in log order, each one queued and not yet acknowledged. */
  lemma {:induction false} PendingMeans(log: Log, done: set<nat>)
    requires ByPosition(log)
    ensures forall e :: e in PendingIn(log, done) <==> e in log && IsQueued(e.draft) && e.id !in done
    ensures forall i, j :: 0 <= i < j < |PendingIn(log, done)| ==> PendingIn(log, done)[i].id < PendingIn(log, done)[j].id
    ensures forall i :: 0 <= i < |PendingIn(log, done)| ==> PendingIn(log, done)[i].id < |log|
  {
    if log != [] {
      var n := |log| - 1;
      assert forall i :: 0 <= i < n ==> log[..n][i] == log[i];
      PendingMeans(log[..n], done);
      assert log == log[..n] + [log[n]];
    }
  }

  lemma {:induction false} BatchMeans(pending: seq<Event>, first: Draft)
    requires forall i, j :: 0 <= i < j < |pending| ==> pending[i].id < pending[j].id
    ensures Increasing(Batch(pending, first))
    ensures forall x :: x in Batch(pending, first) <==> exists i :: 0 <= i < |pending| && pending[i].id == x && SameAudience(pending[i].draft, first)
  {
    if pending != [] {
      var n := |pending| - 1;
      var front := pending[..n];
      BatchMeans(front, first);
      assert forall i :: 0 <= i < n ==> front[i] == pending[i];
      forall i | 0 <= i < |Batch(front, first)| ensures Batch(front, first)[i] < pending[n].id {
        assert Batch(front, first)[i] in Batch(front, first);
      }
    }
  }

  lemma {:induction false} LastDigestIsLatest(log: Log)
    requires Spaced(log)
    ensures forall i :: 0 <= i < |log| && log[i].draft.digest.Some? ==> log[i].draft.createdAt <= LastDigestAt(log)
  {
    if log != [] {
      var n := |log| - 1;
      var front := log[..n];
      assert forall i :: 0 <= i < n ==> front[i] == log[i];
      forall i, j | 0 <= i < j < n ensures Apart(front, i, j) { assert Apart(log, i, j); }
      LastDigestIsLatest(front);
      if log[n].draft.digest.Some? { assert log[n].draft.digest.value.minutes * MINUTE >= 0; }
      forall i | 0 <= i <= n && log[i].draft.digest.Some? ensures log[i].draft.createdAt <= LastDigestAt(log) {
        if i < n { assert front[i] == log[i] && Apart(log, i, n); }
      }
    }
  }

  lemma SoundExtends(log: Log, e: Event, i: nat)
    requires i < |log|
    ensures DigestIsSound(log + [e], i) <==> DigestIsSound(log, i)
  {
    assert forall x :: 0 <= x < |log| ==> (log + [e])[x] == log[x];
  }

  predicate InBatch(log: Log, first: Draft, x: nat) {
    x < |log| && IsQueued(log[x].draft) && x !in Acknowledged(log) && SameAudience(log[x].draft, first)
  }

  /** The batch of a due flush: nonempty, led by the oldest pending event, and every pending
      event of its audience. */
  lemma BatchIsSound(log: Log)
    requires ByPosition(log) && Pending(log) != []
    ensures var first := Pending(log)[0]; var batch := Batch(Pending(log), first.draft);
      && batch != [] && batch[0] == first.id && Increasing(batch)
      && first.id < |log| && log[first.id] == first
      && (forall x: nat :: x in batch <==> InBatch(log, first.draft, x))
  {
    var pending := Pending(log);
    var first := pending[0];
    var batch := Batch(pending, first.draft);
    PendingMeans(log, Acknowledged(log));
    BatchMeans(pending, first.draft);
    forall x: nat ensures x in batch <==> InBatch(log, first.draft, x) { BatchMember(log, first.draft, x); }
    assert first in pending && first.id in batch;
    var k :| 0 <= k < |batch| && batch[k] == first.id;
    assert batch[0] in batch;
  }

  lemma BatchMember(log: Log, first: Draft, x: nat)
    requires ByPosition(log)
    ensures x in Batch(Pending(log), first) <==> InBatch(log, first, x)
  {
    var pending := Pending(log);
    PendingMeans(log, Acknowledged(log));
    BatchMeans(pending, first);
    if x in Batch(pending, first) {
      var i :| 0 <= i < |pending| && pending[i].id == x && SameAudience(pending[i].draft, first);
      assert pending[i] in pending;
    }
    if InBatch(log, first, x) { assert log[x] in pending; }
  }

  lemma AppendAcknowledgesOnce(log: Log, d: Draft)
    requires AcknowledgedOnce(log)
    requires d.digest.Some? ==> forall x: nat :: x in d.digest.value.eventIds ==> x !in Acknowledged(log)
    ensures AcknowledgedOnce(log + [Event(|log|, d)])
  {
    var next := log + [Event(|log|, d)];
    forall i: nat, j: nat, x: nat | Acknowledges(next, i, x) && Acknowledges(next, j, x) ensures i == j {
      assert i < |log| ==> Acknowledges(log, i, x);
      assert j < |log| ==> Acknowledges(log, j, x);
      AcknowledgedMeans(log, x);
    }
  }

  lemma AppendStaysSpaced(log: Log, e: Event)
    requires Spaced(log) && forall i :: 0 <= i < |log| ==> Apart(log + [e], i, |log|)
    ensures Spaced(log + [e])
  {
    forall i, j | 0 <= i < j <= |log| ensures Apart(log + [e], i, j) {
      if j < |log| { assert Apart(log, i, j); }
    }
  }

  lemma AppendStaysSound(log: Log, e: Event)
    requires (forall i :: 0 <= i < |log| ==> DigestIsSound(log, i)) && DigestIsSound(log + [e], |log|)
    ensures forall i :: 0 <= i < |log + [e]| ==> DigestIsSound(log + [e], i)
  {
    forall i | 0 <= i <= |log| ensures DigestIsSound(log + [e], i) {
      if i < |log| { SoundExtends(log, e, i); }
    }
  }

  lemma AppendKeepsDigestInv(log: Log, d: Draft)
    requires DigestInv(log) && DigestIsSound(log + [Event(|log|, d)], |log|)
    requires d.key.DigestKey? ==> d.digest.Some?
    requires d.digest.Some? ==> forall x: nat :: x in d.digest.value.eventIds ==> x !in Acknowledged(log)
    requires forall i :: 0 <= i < |log| ==> Apart(log + [Event(|log|, d)], i, |log|)
    ensures DigestInv(log + [Event(|log|, d)])
  {
    AppendAcknowledgesOnce(log, d);
    AppendStaysSpaced(log, Event(|log|, d));
    AppendStaysSound(log, Event(|log|, d));
  }

  lemma DueDigestIsNew(log: Log, now: Time, minutes: nat)
    requires DigestInv(log) && Due(log, now, minutes)
    ensures !HasKey(log, DigestKey(Pending(log)[0].id))
  {
    var first := Pending(log)[0];
    BatchIsSound(log);
    assert Batch(Pending(log), first.draft)[0] in Batch(Pending(log), first.draft);
    assert InBatch(log, first.draft, first.id);
    if HasKey(log, DigestKey(first.id)) {
      var i :| 0 <= i < |log| && log[i].draft.key == DigestKey(first.id);
      assert DigestIsSound(log, i);
      assert Acknowledges(log, i, first.id);
      AcknowledgedMeans(log, first.id);
    }
  }

  lemma FlushKeepsDigestInv(log: Log, now: Time, minutes: nat)
    requires DigestInv(log)
    ensures DigestInv(Flushed(log, now, minutes))
  {
    if Due(log, now, minutes) {
      var first := Pending(log)[0];
      var d := DigestDraft(first, Batch(Pending(log), first.draft), now, minutes);
      BatchIsSound(log);
      PendingMeans(log, Acknowledged(log));
      assert first in Pending(log) && log[first.id] == first;
      DueDigestIsNew(log, now, minutes);
      LastDigestIsLatest(log);
      AppendKeepsDigestInv(log, d);
    }
  }

  lemma WriteKeepsDigestInv(log: Log, d: Draft, now: Time)
    requires DigestInv(log) && d.key.ClientKey? && d.digest.None?
    ensures DigestInv(Appended(log, Gated(log, d, now)))
  {
    if !HasKey(log, d.key) { AppendKeepsDigestInv(log, Gated(log, d, now)); }
  }

  /** Over every run each queued event is acknowledged by at most one digest, after it was
      queued; every digest covers one classification and audience; and a digest comes at least
      its recorded minutes after its oldest event and after every earlier digest. */
  lemma {:induction false} EveryRunAcknowledgesOnce(log: Log, steps: seq<Step>)
    requires DigestInv(log) && forall i :: 0 <= i < |steps| ==> FromClient(steps[i])
    ensures DigestInv(Run(log, steps))
  {
    if steps != [] {
      var n := |steps| - 1;
      assert forall i :: 0 <= i < n ==> steps[..n][i] == steps[i];
      EveryRunAcknowledgesOnce(log, steps[..n]);
      match steps[n]
      case WriteStep(d, now) => WriteKeepsDigestInv(Run(log, steps[..n]), d, now);
      case FlushStep(now, minutes) => FlushKeepsDigestInv(Run(log, steps[..n]), now, minutes);
    }
  }

  /** A due flush takes exactly the oldest pending event and all that share its audience out of
      the pending events; everything else stays pending. A flush that is not due changes nothing. */
  lemma FlushShrinksPending(log: Log, now: Time, minutes: nat, e: Event)
    requires DigestInv(log)
    ensures !Due(log, now, minutes) ==> Flushed(log, now, minutes) == log
    ensures Due(log, now, minutes) ==>
      && Pending(log)[0] !in Pending(Flushed(log, now, minutes))
      && (e in Pending(Flushed(log, now, minutes)) <==> e in Pending(log) && !SameAudience(e.draft, Pending(log)[0].draft))
  {
    if Due(log, now, minutes) {
      var first, next := Pending(log)[0], Flushed(log, now, minutes);
      BatchIsSound(log);
      DueDigestIsNew(log, now, minutes);
      FlushKeepsDigestInv(log, now, minutes);
      assert next[..|log|] == log;
      PendingMeans(log, Acknowledged(log));
      PendingMeans(next, Acknowledged(next));
      assert first in Pending(log);
      assert forall f :: f in next <==> f in log || f == next[|log|];
    }
  }
}
