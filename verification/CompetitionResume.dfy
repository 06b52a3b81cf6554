/** How a run of a competition goes on where another left it: after a crash, beside attempts that
    wait, and with what has been reconciled. */
module CompetitionResume {
  import opened Basics
  import opened Budget
  import opened Competition
  import opened CompetitionRuns
  import opened CompetitionCourse

  /** The participant's first attempt is k. */
  ghost predicate FirstAttempt(attempts: seq<Attempt>, k: nat, participant: Id) {
    k < |attempts| && attempts[k].participant == participant && forall j :: 0 <= j < k ==> attempts[j].participant != participant
  }

  /** The participant has a candidate, or its first attempt failed or was reconciled. */
  ghost predicate Settled(r: Record, participant: Id) {
    || (exists e :: e in r.candidates && e.agent == participant)
    || exists k: nat :: FirstAttempt(r.attempts, k, participant) && (r.attempts[k].state.Failed? || r.attempts[k].state.Reconciled?)
  }

  /** No attempt has started or is unknown. */
  ghost predicate NothingWaits(r: Record) { forall k :: 0 <= k < |r.attempts| ==> !r.attempts[k].state.Started? && !r.attempts[k].state.Unknown? }

  lemma SettledMeans(r: Record, participant: Id)
    ensures Settled(r, participant) <==> HasCandidate(r.candidates, participant) || GivenUp(r.attempts, participant)
  {
    if HasCandidate(r.candidates, participant) {
      var i :| 0 <= i < |r.candidates| && r.candidates[i].agent == participant;
      assert r.candidates[i] in r.candidates;
    }
    if GivenUp(r.attempts, participant) {
      var k: nat :| k < |r.attempts| && r.attempts[k].participant == participant && (r.attempts[k].state.Failed? || r.attempts[k].state.Reconciled?)
        && forall j :: 0 <= j < k ==> r.attempts[j].participant != participant;
      assert FirstAttempt(r.attempts, k, participant);
    }
  }

  function Reads(c: nat, n: nat): seq<Event> { if n == 0 then [] else Reads(c, n - 1) + [Advance(c, "", READ)] }

  /** The caller stands somewhere else, and nothing else has changed. */
  function Standing(w: World, c: nat, caller: Caller): World { w.(callers := w.callers[c := caller]) }

  lemma MovesOn(w: World, c: nat, from: Caller, to: Caller)
    ensures Standing(Standing(w, c, from), c, to) == Standing(w, c, to)
  {
    assert w.callers[c := from][c := to] == w.callers[c := to];
  }

  lemma ReadsPastSettled(w: World, c: nat, judge: Id, i: nat)
    requires i < |w.record.brief.participants| && Open(w.record.status) && NothingWaits(w.record) && Settled(w.record, w.record.brief.participants[i])
    ensures Next(Standing(w, c, Looping(judge, i)), Advance(c, "", READ)) == Standing(w, c, Looping(judge, i + 1))
  {
    SettledMeans(w.record, w.record.brief.participants[i]);
    assert !AnyWaiting(w.record.attempts);
    MovesOn(w, c, Looping(judge, i), Looping(judge, i + 1));
  }

  /** Where a caller goes that comes to a participant with neither a candidate nor an attempt given up. */
  ghost function AtUnsettled(r: Record, judge: Id, i: nat): Caller {
    if Fits(r.brief.budget, Calls(r), true) then Reserving(judge, i) else Failing
  }

  lemma ReadsAtUnsettled(w: World, c: nat, judge: Id, i: nat)
    requires i < |w.record.brief.participants| && Open(w.record.status) && NothingWaits(w.record) && !Settled(w.record, w.record.brief.participants[i])
    ensures Next(Standing(w, c, Looping(judge, i)), Advance(c, "", READ)) == Standing(w, c, AtUnsettled(w.record, judge, i))
  {
    SettledMeans(w.record, w.record.brief.participants[i]);
    assert !AnyWaiting(w.record.attempts);
    MovesOn(w, c, Looping(judge, i), AtUnsettled(w.record, judge, i));
  }

  /** Where a caller goes that has come past every participant. */
  ghost function AtTheEnd(r: Record, judge: Id): Caller {
    if r.candidates != [] && Fits(r.brief.budget, Calls(r), true) then ReservingEvaluator(judge, r.candidates) else Failing
  }

  lemma ReadsAtTheEnd(w: World, c: nat, judge: Id, i: nat)
    requires i == |w.record.brief.participants| && w.record.status.Running? && NothingWaits(w.record)
    ensures Next(Standing(w, c, Looping(judge, i)), Advance(c, "", READ)) == Standing(w, c, AtTheEnd(w.record, judge))
  {
    assert !AnyWaiting(w.record.attempts);
    MovesOn(w, c, Looping(judge, i), AtTheEnd(w.record, judge));
  }

  lemma ReadOnce(w: World, c: nat, n: nat, before: World, after: World)
    requires Run(w, Reads(c, n)) == before && Next(before, Advance(c, "", READ)) == after
    ensures Run(w, Reads(c, n + 1)) == after
  {
    RunExtends(w, Reads(c, n), Advance(c, "", READ));
  }

  /** The participants from i on and before j are settled. */
  ghost predicate SettledFrom(r: Record, i: nat, j: nat)
    requires i <= j <= |r.brief.participants|
  {
    forall k :: i <= k < j ==> Settled(r, r.brief.participants[k])
  }

  lemma ThenSettled(w: World, c: nat, judge: Id, i: nat, j: nat, m: nat, n: nat)
    requires j == i + 1 && n == m + 1 && j <= |w.record.brief.participants| && Open(w.record.status) && NothingWaits(w.record)
    requires Settled(w.record, w.record.brief.participants[i])
    requires Run(w, Reads(c, m)) == Standing(w, c, Looping(judge, i))
    ensures Run(w, Reads(c, n)) == Standing(w, c, Looping(judge, j))
  {
    ReadsPastSettled(w, c, judge, i);
    ReadOnce(w, c, m, Standing(w, c, Looping(judge, i)), Standing(w, c, Looping(judge, j)));
  }

  /** Reading goes past the participants that are settled and changes nothing. */
  lemma {:induction false} PassesSettled(w: World, c: nat, judge: Id, i: nat, j: nat, n: nat)
    requires c in w.callers && w.callers[c] == Looping(judge, i) && n == j - i && j <= |w.record.brief.participants|
    requires Open(w.record.status) && NothingWaits(w.record) && SettledFrom(w.record, i, j)
    ensures Run(w, Reads(c, n)) == Standing(w, c, Looping(judge, j))
  {
    if n == 0 {
      assert w.callers[c := Looping(judge, j)] == w.callers;
    } else {
      var k, m := j - 1, n - 1;
      PassesSettled(w, c, judge, i, k, m);
      ThenSettled(w, c, judge, k, j, m, n);
    }
  }

  lemma ThenUnsettled(w: World, c: nat, judge: Id, i: nat, n: nat)
    requires i < |w.record.brief.participants| && Open(w.record.status) && NothingWaits(w.record) && !Settled(w.record, w.record.brief.participants[i])
    requires Run(w, Reads(c, n)) == Standing(w, c, Looping(judge, i))
    ensures Run(w, Reads(c, n + 1)) == Standing(w, c, AtUnsettled(w.record, judge, i))
  {
    ReadsAtUnsettled(w, c, judge, i);
    ReadOnce(w, c, n, Standing(w, c, Looping(judge, i)), Standing(w, c, AtUnsettled(w.record, judge, i)));
  }

  /** A run resumed after a crash, or begun beside settled participants, goes on with the first one that
      is not settled when the budget admits a call, and fails when it does not. */
  lemma ResumesAtTheFirstUnsettled(w: World, c: nat, judge: Id, i: nat, j: nat, n: nat)
    requires c in w.callers && w.callers[c] == Looping(judge, i) && n == j - i && j < |w.record.brief.participants|
    requires Open(w.record.status) && NothingWaits(w.record) && SettledFrom(w.record, i, j)
    requires !Settled(w.record, w.record.brief.participants[j])
    ensures Run(w, Reads(c, n + 1)) == Standing(w, c, AtUnsettled(w.record, judge, j))
  {
    PassesSettled(w, c, judge, i, j, n);
    ThenUnsettled(w, c, judge, j, n);
  }

  lemma ThenTheEnd(w: World, c: nat, judge: Id, i: nat, n: nat)
    requires i == |w.record.brief.participants| && w.record.status.Running? && NothingWaits(w.record)
    requires Run(w, Reads(c, n)) == Standing(w, c, Looping(judge, i))
    ensures Run(w, Reads(c, n + 1)) == Standing(w, c, AtTheEnd(w.record, judge))
  {
    ReadsAtTheEnd(w, c, judge, i);
    ReadOnce(w, c, n, Standing(w, c, Looping(judge, i)), Standing(w, c, AtTheEnd(w.record, judge)));
  }

  /** When every participant left is settled, a running record goes to the evaluator with all its
      candidates if it has any and the budget admits the call, and fails otherwise. */
  lemma ResumesWithTheEvaluator(w: World, c: nat, judge: Id, i: nat, j: nat, n: nat)
    requires c in w.callers && w.callers[c] == Looping(judge, i) && n == j - i && j == |w.record.brief.participants|
    requires w.record.status.Running? && NothingWaits(w.record) && SettledFrom(w.record, i, j)
    ensures Run(w, Reads(c, n + 1)) == Standing(w, c, AtTheEnd(w.record, judge))
  {
    PassesSettled(w, c, judge, i, j, n);
    ThenTheEnd(w, c, judge, j, n);
  }

  /** A caller begins exactly while the record collects or runs, and only when it takes no part; a stored
      evaluation it goes on to apply. */
  lemma BeginsExactly(w: World, c: nat, judge: Id)
    requires c in w.callers && w.callers[c] == AtStart(judge)
    ensures Next(w, Advance(c, "", READ)) == w.(callers := w.callers[c :=
      if w.record.status.Evaluating? && w.record.evaluator.Some? && w.record.evaluator.value.state.Completed? then Finishing
      else if (w.record.status.Collecting? || w.record.status.Running?) && judge !in w.record.brief.participants then Begun(judge)
      else Done])
  {}

  /** A caller that comes to a participant without a candidate, or to the end, while an attempt waits
      or the record is closed is done, and leaves everything as it is. */
  lemma StopsBesideOthers(w: World, c: nat, judge: Id, i: nat)
    requires c in w.callers && w.callers[c] == Looping(judge, i)
    requires i < |w.record.brief.participants| ==> forall e :: e in w.record.candidates ==> e.agent != w.record.brief.participants[i]
    requires !NothingWaits(w.record) || !(w.record.status.Running? || (w.record.status.Collecting? && i < |w.record.brief.participants|))
    ensures Next(w, Advance(c, "", READ)) == w.(callers := w.callers[c := Done])
  {
    assert AnyWaiting(w.record.attempts) <==> !NothingWaits(w.record);
  }
}
