/** When the gate of one room delivers at once, when it holds back and when it sends a digest, told
    on the events of the log alone. */
module ChannelGate {
  import opened Basics
  import opened ChannelDigest

  // ---------------------------------------------------------------- the window

  /** Delivered at once within the last ten minutes, or published then before the rule existed. */
  predicate TakesAPlace(d: Draft, now: Time) {
    match d.delivery
    case Some(v) => v.mode.Immediate? && now - 600000 < v.at <= now
    case None => !d.retract && (d.attention.Message? || d.attention.Progress?) && now - 600000 < d.createdAt <= now
  }

  ghost function Places(log: Log, now: Time): set<nat> { set i: nat | i < |log| && TakesAPlace(log[i].draft, now) }

  lemma LastPlace(log: Log, now: Time)
    requires log != []
    ensures var n: nat := |log| - 1;
      && n !in Places(log[..n], now)
      && Places(log, now) == Places(log[..n], now) + if TakesAPlace(log[n].draft, now) then {n} else {}
  {
    var n: nat := |log| - 1;
    forall i: nat ensures i in Places(log, now) <==> i in Places(log[..n], now) || (i == n && TakesAPlace(log[n].draft, now)) {}
  }

  lemma {:induction false} CountIsCardinality(log: Log, now: Time)
    ensures Count(log, now) == |Places(log, now)|
  {
    if log == [] {
      assert Places(log, now) == {};
    } else {
      CountIsCardinality(log[..|log| - 1], now);
      LastPlace(log, now);
    }
  }

  // ---------------------------------------------------------------- writes

  /** The draft as the room takes it: untouched for people, decisions and retractions; otherwise with
      a delivery of this moment, at once exactly for a message that finds fewer than six places taken. */
  ghost predicate TakenAs(log: Log, d: Draft, now: Time, taken: Draft) {
    && taken == d.(delivery := taken.delivery)
    && if d.attention.Human? || d.attention.DecisionNeeded? || d.retract then taken.delivery == d.delivery
       else && taken.delivery.Some? && taken.delivery.value.at == now
            && (taken.delivery.value.mode.Immediate? <==> d.attention.Message? && |Places(log, now)| < 6)
  }

  /** A write under a used key changes nothing; any other appends one event, taken as above. */
  lemma WriteIsGatedExactly(log: Log, d: Draft, now: Time)
    ensures var next := Next(log, WriteStep(d, now));
      if exists i :: 0 <= i < |log| && log[i].draft.key == d.key then next == log
      else |next| == |log| + 1 && next[..|log|] == log && next[|log|].id == |log| && TakenAs(log, d, now, next[|log|].draft)
  {
    CountIsCardinality(log, now);
  }

  /** Every event a client wrote in a run was taken, unchanged since, from one write, on the log
      before it. */
  lemma {:induction false} EveryEventWasGatedExactly(steps: seq<Step>, i: nat) returns (m: nat)
    requires i < |Run([], steps)| && Run([], steps)[i].draft.key.ClientKey?
    ensures m < |steps| && steps[m].WriteStep? && Run([], steps[..m]) == Run([], steps)[..i]
    ensures TakenAs(Run([], steps)[..i], steps[m].d, steps[m].now, Run([], steps)[i].draft)
  {
    var n := |steps| - 1;
    var before, after := Run([], steps[..n]), Run([], steps);
    assert before <= after;
    if i < |before| {
      m := EveryEventWasGatedExactly(steps[..n], i);
      assert steps[..n][..m] == steps[..m] && after[..i] == before[..i];
    } else {
      m := n;
      WriteIsGatedExactly(before, steps[n].d, steps[n].now);
      assert after[..i] == before;
    }
  }

  // ---------------------------------------------------------------- flushes

  /** Queued, and in no digest yet. */
  ghost predicate Waits(log: Log, x: nat) {
    && x < |log| && log[x].draft.delivery.Some? && log[x].draft.delivery.value.mode.Queued?
    && forall j :: 0 <= j < |log| && log[j].draft.digest.Some? ==> x !in log[j].draft.digest.value.eventIds
  }

  ghost predicate WaitsLongest(log: Log, x: nat) { Waits(log, x) && forall y: nat :: y < x ==> !Waits(log, y) }

  ghost predicate IsLastDigest(log: Log, j: nat) {
    j < |log| && log[j].draft.digest.Some? && forall k :: j < k < |log| ==> log[k].draft.digest.None?
  }

  lemma WaitsIsPending(log: Log, x: nat)
    requires ByPosition(log) && x < |log|
    ensures Waits(log, x) <==> log[x] in Pending(log)
  {
    PendingMeans(log, Acknowledged(log));
    AcknowledgedMeans(log, x);
    if !Waits(log, x) && IsQueued(log[x].draft) {
      var j :| 0 <= j < |log| && log[j].draft.digest.Some? && x in log[j].draft.digest.value.eventIds;
      assert Acknowledges(log, j, x);
    }
    if j :| Acknowledges(log, j, x) { assert !Waits(log, x); }
  }

  lemma FirstPendingWaitsLongest(log: Log)
    requires ByPosition(log)
    ensures Pending(log) == [] ==> forall x: nat :: !Waits(log, x)
    ensures Pending(log) != [] ==>
      var first := Pending(log)[0]; first.id < |log| && log[first.id] == first && WaitsLongest(log, first.id)
  {
    var pending := Pending(log);
    PendingMeans(log, Acknowledged(log));
    if pending == [] {
      forall x: nat ensures !Waits(log, x) { if x < |log| { WaitsIsPending(log, x); } }
    } else {
      var first := pending[0];
      assert first in pending;
      WaitsIsPending(log, first.id);
      forall y: nat | y < first.id ensures !Waits(log, y) { WaitsIsPending(log, y); }
    }
  }

  lemma {:induction false} LastDigestMeans(log: Log)
    ensures forall j: nat :: IsLastDigest(log, j) ==> LastDigestAt(log) == log[j].draft.createdAt
    ensures (forall j: nat :: !IsLastDigest(log, j)) ==> LastDigestAt(log) == 0
  {
    if log != [] {
      var n: nat := |log| - 1;
      LastDigestMeans(log[..n]);
      if log[n].draft.digest.Some? {
        assert IsLastDigest(log, n);
      } else {
        assert forall j: nat :: IsLastDigest(log[..n], j) ==> IsLastDigest(log, j);
        assert forall j: nat :: IsLastDigest(log, j) ==> IsLastDigest(log[..n], j);
      }
    }
  }

  /** It has waited, and the room has gone without a digest, for the minutes of the setting. */
  ghost predicate LongEnough(log: Log, x: nat, now: Time, minutes: nat)
    requires x < |log| && log[x].draft.delivery.Some?
  {
    && log[x].draft.delivery.value.at + minutes * 60000 <= now
    && (forall j: nat :: IsLastDigest(log, j) ==> log[j].draft.createdAt + minutes * 60000 <= now)
    && ((forall j: nat :: !IsLastDigest(log, j)) ==> minutes * 60000 <= now)
  }

  /** A flush sends exactly when the rate allows it and the event that waits longest has waited long
      enough. What it sends is delivered at once and names, in order, all that wait with its audience. */
  lemma FlushSendsExactly(log: Log, now: Time, minutes: nat)
    requires DigestInv(log)
    ensures var next := Next(log, FlushStep(now, minutes));
      next == log || (|next| == |log| + 1 && next[..|log|] == log)
    ensures Next(log, FlushStep(now, minutes)) != log <==>
      |Places(log, now)| < 6 && exists x: nat :: WaitsLongest(log, x) && LongEnough(log, x, now, minutes)
    ensures var next := Next(log, FlushStep(now, minutes));
      forall x: nat :: next != log && WaitsLongest(log, x) ==> IsDigestOf(log, x, now, minutes, next[|log|])
  {
    CountIsCardinality(log, now);
    FirstPendingWaitsLongest(log);
    LastDigestMeans(log);
    if Pending(log) != [] {
      var x := Pending(log)[0].id;
      assert forall y: nat :: WaitsLongest(log, y) ==> y == x;
      assert Due(log, now, minutes) <==> |Places(log, now)| < 6 && LongEnough(log, x, now, minutes);
      if Due(log, now, minutes) {
        DueDigestIsNew(log, now, minutes);
        DigestIsTheWaiting(log, now, minutes);
      }
    }
  }

  ghost predicate IsDigestOf(log: Log, x: nat, now: Time, minutes: nat, e: Event)
    requires x < |log|
  {
    var first, d := log[x].draft, e.draft;
    && e.id == |log| && d.key == DigestKey(x) && d.attention.Message? && !d.retract
    && d.classification == first.classification && d.audience == first.audience
    && d.createdAt == now && d.delivery == Some(Delivery(Immediate, now))
    && d.digest.Some? && d.digest.value.minutes == minutes && Increasing(d.digest.value.eventIds)
    && forall y: nat :: y in d.digest.value.eventIds <==>
         Waits(log, y) && log[y].draft.classification == first.classification && log[y].draft.audience == first.audience
  }

  lemma DigestIsTheWaiting(log: Log, now: Time, minutes: nat)
    requires DigestInv(log) && Pending(log) != []
    ensures var first := Pending(log)[0];
      first.id < |log| && IsDigestOf(log, first.id, now, minutes, Event(|log|, DigestDraft(first, Batch(Pending(log), first.draft), now, minutes)))
  {
    var first := Pending(log)[0];
    BatchIsSound(log);
    forall y: nat ensures InBatch(log, first.draft, y) <==> Waits(log, y) && SameAudience(log[y].draft, first.draft) {
      if y < |log| {
        WaitsIsPending(log, y);
        PendingMeans(log, Acknowledged(log));
      }
    }
  }
}
