/** Every interleaving of concurrent `runCompetition` callers, crashes, late replies,
    reconciliations and direct service calls on one competition record. */
module CompetitionRuns {
  import opened Basics
  import opened Budget
  import opened Competition

  // ---------------------------------------------------------------- record invariants

  function Participants(attempts: seq<Attempt>): seq<Id> {
    seq(|attempts|, i requires 0 <= i < |attempts| => attempts[i].participant)
  }

  function Agents(candidates: seq<Envelope>): seq<Id> {
    seq(|candidates|, i requires 0 <= i < |candidates| => candidates[i].agent)
  }

  function Scored(scores: seq<Score>): seq<Id> {
    seq(|scores|, i requires 0 <= i < |scores| => scores[i].agent)
  }

  ghost predicate SettledButLatest(attempts: seq<Attempt>) {
    forall i :: 0 <= i < |attempts| - 1 ==> !Waiting(attempts[i].state)
  }

  /** Attempts: one per participant, only the latest waiting, and none waiting once
      the record is collecting again, is being evaluated or is finished. */
  ghost predicate AttemptsInv(r: Record) {
    && NoDuplicates(Participants(r.attempts))
    && (forall p :: p in Participants(r.attempts) ==> p in r.brief.participants)
    && SettledButLatest(r.attempts)
    && (AnyWaiting(r.attempts) ==> r.evaluator.None? && !r.status.Collecting? && !r.status.Evaluating? && !r.status.Finished?)
    && (r.evaluator.Some? ==> !Open(r.status))
    && OvershootsByOneCall(r.brief.budget, Calls(r))
  }

  ghost predicate CandidatesInv(r: Record) {
    && NoDuplicates(Agents(r.candidates))
    && (forall a :: a in Agents(r.candidates) ==> a in r.brief.participants)
    && (forall i :: 0 <= i < |r.candidates| ==> BoundTo(r.brief, r.candidates[i]))
    && r.totalCost == Cost(r.candidates)
  }

  /** The selection is an accepted score no other accepted score beats, within the cost limit. */
  ghost predicate ProperlySelected(r: Record, agent: Id) {
    && !TooCostly(r)
    && (exists i :: 0 <= i < |r.scores| && r.scores[i].agent == agent && r.scores[i].accepted
          && forall j :: 0 <= j < |r.scores| && r.scores[j].accepted ==> r.scores[j].score <= r.scores[i].score)
  }

  ghost predicate Judged(r: Record) {
    && (r.selected.Some? ==> !Open(r.status) && !r.status.Evaluating? && !AnyWaiting(r.attempts) && ProperlySelected(r, r.selected.value))
    && (r.status.Finished? ==>
          && !TooCostly(r) && FullField(r) && |r.scores| == |r.candidates|)
    && NoDuplicates(Scored(r.scores))
    && (forall i :: 0 <= i < |r.scores| ==> HasCandidate(r.candidates, r.scores[i].agent))
    && (r.scores != [] ==> !Open(r.status) && !AnyWaiting(r.attempts))
  }

  ghost predicate Inv(r: Record) { AttemptsInv(r) && CandidatesInv(r) && Judged(r) }

  predicate New(r: Record) {
    r == Record(r.brief, Collecting, [], [], [], None, None, None, 0.0)
  }

  lemma NewIsInv(r: Record)
    requires New(r)
    ensures Inv(r)
  {}

  // ---------------------------------------------------------------- attempts

  ghost predicate SameAttempts(r: Record, next: Record) {
    next.attempts == r.attempts && next.evaluator == r.evaluator && next.brief == r.brief
  }

  /** The latest attempt is rewritten, keeping its participant. */
  lemma RewritingLatest(budget: Option<Limits>, before: seq<Attempt>, k: nat, a: Attempt)
    requires k < |before| && Waiting(before[k].state) && a.participant == before[k].participant
    requires SettledButLatest(before) && NoDuplicates(Participants(before)) && OvershootsByOneCall(budget, UsageOf(before))
    ensures var after := before[k := a];
      && SettledButLatest(after) && Participants(after) == Participants(before) && OvershootsByOneCall(budget, UsageOf(after))
      && (AnyWaiting(after) <==> Waiting(a.state))
  {
    var after := before[k := a];
    assert k == |before| - 1;
    assert Participants(after) == Participants(before);
    LatestReportIsFree(budget, UsageOf(before), UsageOf(after));
    if Waiting(a.state) { assert Waiting(after[k].state); }
  }

  lemma AddingAttempt(r: Record, a: Attempt)
    requires AttemptsInv(r) && !AnyWaiting(r.attempts) && !HasAttempt(r.attempts, a.participant)
    requires Fits(r.brief.budget, Calls(r), true) && r.evaluator.None? && a.participant in r.brief.participants
    ensures AttemptsInv(r.(attempts := r.attempts + [a], status := Running))
    ensures Participants(r.attempts + [a]) == Participants(r.attempts) + [a.participant]
  {
    var after, n := r.attempts + [a], |r.attempts|;
    assert Participants(after) == Participants(r.attempts) + [a.participant];
    forall i | 0 <= i < n ensures Participants(after)[i] != a.participant && !Waiting(after[i].state) {
      assert r.attempts[i].participant != a.participant && after[i] == r.attempts[i];
    }
    AdmissionBoundsOvershoot(r.brief.budget, Calls(r), a.usage);
    assert Calls(r.(attempts := after, status := Running)) == Calls(r) + [a.usage];
  }

  lemma RewritingAttempt(r: Record, k: nat, a: Attempt)
    requires AttemptsInv(r) && k < |r.attempts| && Waiting(r.attempts[k].state) && a.participant == r.attempts[k].participant
    ensures AttemptsInv(r.(attempts := r.attempts[k := a]))
    ensures !Waiting(a.state) ==> AttemptsInv(Reopened(r.(attempts := r.attempts[k := a])))
    ensures Participants(r.attempts[k := a]) == Participants(r.attempts)
    ensures AnyWaiting(r.attempts) && r.evaluator.None?
    ensures !Waiting(a.state) ==> !AnyWaiting(r.attempts[k := a])
  {
    assert Calls(r) == UsageOf(r.attempts);
    RewritingLatest(r.brief.budget, r.attempts, k, a);
    assert Calls(r.(attempts := r.attempts[k := a])) == UsageOf(r.attempts[k := a]);
  }

  lemma RewritingEvaluator(r: Record, e: EvaluatorAttempt)
    requires AttemptsInv(r) && r.evaluator.Some?
    ensures AttemptsInv(r.(evaluator := Some(e)))
  {
    var after := r.(evaluator := Some(e));
    LatestReportIsFree(r.brief.budget, Calls(r), Calls(after));
  }

  // ---------------------------------------------------------------- candidates

  lemma AddCandidateKeepsInv(r: Record, e: Envelope)
    requires CandidatesInv(r) && BoundTo(r.brief, e) && e.agent in r.brief.participants
    ensures CandidatesInv(AddCandidate(r, e)) && r.candidates <= AddCandidate(r, e).candidates
    ensures SameAttempts(r, AddCandidate(r, e))
  {
    if !HasCandidate(r.candidates, e.agent) {
      var after := r.candidates + [e];
      assert Agents(after) == Agents(r.candidates) + [e.agent];
      forall i | 0 <= i < |r.candidates| ensures Agents(after)[i] != e.agent { assert r.candidates[i].agent != e.agent; }
    }
  }

  // ---------------------------------------------------------------- scores

  ghost predicate GoodScores(r: Record, scores: seq<Score>) {
    NoDuplicates(Scored(scores)) && forall i :: 0 <= i < |scores| ==> HasCandidate(r.candidates, scores[i].agent)
  }

  lemma AddingScore(r: Record, scores: seq<Score>, s: Score)
    requires GoodScores(r, scores) && HasCandidate(r.candidates, s.agent) && !HasScore(scores, s.agent)
    ensures GoodScores(r, scores + [s])
  {
    assert Scored(scores + [s]) == Scored(scores) + [s.agent];
    forall i | 0 <= i < |scores| ensures Scored(scores)[i] != s.agent { assert scores[i].agent != s.agent; }
  }

  lemma {:induction false} DecodedScoresAreGood(r: Record, raw: seq<Score>)
    requires DecodeScores(r, raw).Some?
    ensures GoodScores(r, DecodeScores(r, raw).value) && |DecodeScores(r, raw).value| == |raw|
    ensures forall i :: 0 <= i < |raw| ==>
      DecodeScores(r, raw).value[i] == raw[i].(agent := Decode(r, raw[i].agent))
  {
    if raw != [] {
      var n := |raw| - 1;
      DecodedScoresAreGood(r, raw[..n]);
      AddingScore(r, DecodeScores(r, raw[..n]).value, raw[n].(agent := Decode(r, raw[n].agent)));
    }
  }

  ghost predicate BestAt(scores: seq<Score>, i: nat) {
    && i < |scores| && scores[i].accepted
    && (forall j :: 0 <= j < |scores| && scores[j].accepted ==> scores[j].score <= scores[i].score)
    && (forall j :: 0 <= j < i && scores[j].accepted ==> scores[j].score < scores[i].score)
  }

  /** Best is the first accepted score of maximal value, and exists exactly when one is accepted. */
  lemma {:induction false} BestIsFirstMaximum(scores: seq<Score>) returns (i: nat)
    ensures Best(scores).Some? ==> BestAt(scores, i) && Best(scores).value == scores[i]
    ensures Best(scores).None? ==> forall j :: 0 <= j < |scores| ==> !scores[j].accepted
  {
    i := 0;
    if scores != [] {
      var n := |scores| - 1;
      i := BestIsFirstMaximum(scores[..n]);
      assert forall j :: 0 <= j < n ==> scores[..n][j] == scores[j];
      if scores[n].accepted && (Best(scores[..n]).None? || scores[n].score > Best(scores[..n]).value.score) { i := n; }
    }
  }

  /** Scores name candidates once each, so they are at most as many, and as many exactly when
      every candidate has one. */
  lemma ScoresCover(r: Record, scores: seq<Score>)
    requires GoodScores(r, scores) && NoDuplicates(Agents(r.candidates))
    ensures |scores| <= |r.candidates|
    ensures |scores| == |r.candidates| <==> forall i :: 0 <= i < |r.candidates| ==> HasScore(scores, r.candidates[i].agent)
  {
    var agents, scored := Agents(r.candidates), Scored(scores);
    forall a | a in scored ensures a in agents {
      var i :| 0 <= i < |scored| && scored[i] == a;
      assert HasCandidate(r.candidates, scores[i].agent);
      var k :| 0 <= k < |r.candidates| && r.candidates[k].agent == a;
      assert agents[k] == a;
    }
    Pigeonhole(scored, agents);
    forall i | 0 <= i < |agents| ensures agents[i] in scored <==> HasScore(scores, r.candidates[i].agent) { InScored(scores, agents[i]); }
  }

  lemma InScored(scores: seq<Score>, agent: Id)
    ensures agent in Scored(scores) <==> HasScore(scores, agent)
  {
    if HasScore(scores, agent) {
      var i :| 0 <= i < |scores| && scores[i].agent == agent;
      assert Scored(scores)[i] == agent;
    }
  }

  lemma InAgents(candidates: seq<Envelope>, agent: Id)
    ensures agent in Agents(candidates) <==> HasCandidate(candidates, agent)
  {
    if HasCandidate(candidates, agent) {
      var i :| 0 <= i < |candidates| && candidates[i].agent == agent;
      assert Agents(candidates)[i] == agent;
    }
  }

  /** The field is full exactly when no participant is listed twice and each has a candidate. */
  lemma FieldIsFullIff(r: Record)
    requires CandidatesInv(r)
    ensures FullField(r) <==> NoDuplicates(r.brief.participants) && forall p :: p in r.brief.participants ==> HasCandidate(r.candidates, p)
  {
    Pigeonhole(Agents(r.candidates), r.brief.participants);
    forall p | p in r.brief.participants ensures p in Agents(r.candidates) <==> HasCandidate(r.candidates, p) { InAgents(r.candidates, p); }
  }

  predicate Covered(r: Record, scores: seq<Score>) {
    forall p :: p in r.brief.participants ==> HasCandidate(r.candidates, p) && HasScore(scores, p)
  }

  /** A full field with a score for every candidate is a candidate and a score for every one of
      the distinct participants. */
  lemma FullMeansCovered(r: Record, scores: seq<Score>)
    requires CandidatesInv(r) && GoodScores(r, scores)
    ensures FullField(r) && |scores| == |r.candidates| <==> NoDuplicates(r.brief.participants) && Covered(r, scores)
  {
    FieldIsFullIff(r);
    ScoresCover(r, scores);
    if NoDuplicates(r.brief.participants) && Covered(r, scores) {
      forall i | 0 <= i < |r.candidates| ensures HasScore(scores, r.candidates[i].agent) { assert Agents(r.candidates)[i] in r.brief.participants; }
    }
    if FullField(r) && |scores| == |r.candidates| {
      forall p | p in r.brief.participants ensures HasScore(scores, p) {
        var i :| 0 <= i < |r.candidates| && r.candidates[i].agent == p;
      }
    }
  }

  lemma ConcludeIsJudged(r: Record, scores: seq<Score>, full: bool)
    requires GoodScores(r, scores) && !AnyWaiting(r.attempts) && r.selected.None?
    requires full ==> FullField(r) && |scores| == |r.candidates|
    ensures Judged(Conclude(r, scores, full))
  {
    var i := BestIsFirstMaximum(scores);
    var after := Conclude(r, scores, full);
    if after.selected.Some? { assert after.scores[i].agent == after.selected.value; }
  }

  // ---------------------------------------------------------------- every callback keeps the invariant

  lemma JudgedSurvives(r: Record, next: Record)
    requires Judged(r) && next.brief == r.brief && next.scores == r.scores && next.selected == r.selected
    requires next.candidates == r.candidates && next.totalCost == r.totalCost
    requires AnyWaiting(next.attempts) ==> AnyWaiting(r.attempts) || Open(r.status)
    requires next.status == r.status || next.status.Broken? || next.status.Partial?
      || (Open(r.status) && !next.status.Finished?)
      || (AnyWaiting(r.attempts) && Open(next.status))
    ensures Judged(next)
  {}

  lemma JudgedWithCandidate(r: Record, next: Record)
    requires Judged(r) && (Open(r.status) || AnyWaiting(r.attempts)) && !r.status.Finished? && !next.status.Finished?
    requires next.brief == r.brief && next.scores == r.scores && next.selected == r.selected
    ensures Judged(next)
  {
    assert r.scores == [] && r.selected.None?;
  }

  lemma SettleKeepsInv(r: Record, attemptId: Id, e: Envelope)
    requires Inv(r) && BoundTo(r.brief, e) && e.agent in r.brief.participants
    ensures Inv(SettleIn(r, attemptId, e)) && r.candidates <= SettleIn(r, attemptId, e).candidates
    ensures Participants(SettleIn(r, attemptId, e).attempts) == Participants(r.attempts)
  {
    var k := AttemptIndex(r.attempts, attemptId);
    if k < |r.attempts| && r.attempts[k].state.Started? {
      var a := r.attempts[k].(state := Completed, result := Some(e));
      var settled := r.(attempts := r.attempts[k := a]);
      assert AnyWaiting(r.attempts);
      RewritingAttempt(r, k, a);
      AddCandidateKeepsInv(settled, e);
      JudgedWithCandidate(r, AddCandidate(settled, e));
      JudgedWithCandidate(r, settled.(status := Broken));
    }
  }

  lemma ReconcileKeepsInv(r: Record, attemptId: Id, body: Reconciliation)
    requires Inv(r) && ReconcileIn(r, attemptId, body).Ok?
    ensures var next := ReconcileIn(r, attemptId, body).value;
      Inv(next) && r.candidates <= next.candidates && Participants(next.attempts) == Participants(r.attempts)
      && next.brief == r.brief && next.evaluator == r.evaluator
  {
    var k := AttemptIndex(r.attempts, attemptId);
    var next := ReconcileIn(r, attemptId, body).value;
    assert AnyWaiting(r.attempts);
    RewritingAttempt(r, k, next.attempts[k]);
    var settled := r.(attempts := r.attempts[k := next.attempts[k]]);
    assert Participants(r.attempts)[k] in r.brief.participants;
    if !body.failed {
      AddCandidateKeepsInv(settled, body.result.value);
      AddCandidateKeepsInv(Reopened(settled), body.result.value);
    }
    JudgedWithCandidate(r, next);
  }

  lemma ReserveKeepsInv(r: Record, participant: Id, freshId: Id)
    requires Inv(r) && participant in r.brief.participants && ReserveIn(r, participant, freshId).Ok?
    ensures var next := ReserveIn(r, participant, freshId).value;
      && Inv(next.0) && next.0.candidates == r.candidates && next.0.evaluator == r.evaluator && next.0.brief == r.brief
      && Participants(next.0.attempts) == if next.1 then Participants(r.attempts) + [participant] else Participants(r.attempts)
  {
    var next := ReserveIn(r, participant, freshId).value;
    if next.1 {
      AddingAttempt(r, Attempt(freshId, participant, Started, None, None, None));
      JudgedWithCandidate(r, next.0);
    }
  }

  lemma ReserveEvaluatorKeepsInv(r: Record, agent: Id, freshId: Id)
    requires Inv(r) && ReserveEvaluatorIn(r, agent, freshId).Ok?
    ensures Inv(ReserveEvaluatorIn(r, agent, freshId).value.0)
  {
    var next := ReserveEvaluatorIn(r, agent, freshId).value;
    if next.1 {
      AdmissionBoundsOvershoot(r.brief.budget, Calls(r), None);
      assert Calls(next.0) == Calls(r) + [None];
      JudgedWithCandidate(r, next.0);
    }
  }

  lemma SubmitScoreKeepsInv(r: Record, agent: Id, score: Score)
    requires Inv(r) && SubmitScoreIn(r, agent, score).Ok?
    ensures Inv(SubmitScoreIn(r, agent, score).value)
  {
    var actual := if r.brief.blind then Unalias(r.candidates, score.agent) else Some(score.agent);
    AddingScore(r, r.scores, score.(agent := actual.value));
    var scores := r.scores + [score.(agent := actual.value)];
    if |scores| >= |r.candidates| {
      ScoresCover(r, scores);
      ConcludeIsJudged(r, scores, FullField(r));
    }
  }

  lemma FinishKeepsInv(r: Record)
    requires Inv(r)
    ensures Inv(FinishIn(r)) && FinishIn(r).attempts == r.attempts && FinishIn(r).candidates == r.candidates
  {
    if FinishIn(r) != r {
      var next := FinishIn(r);
      if DecodeScores(r, r.evaluator.value.scores).Some? {
        DecodedScoresAreGood(r, r.evaluator.value.scores);
        var scores := DecodeScores(r, r.evaluator.value.scores).value;
        ConcludeIsJudged(r, scores, FullField(r) && |scores| == |r.candidates|);
      }
    }
  }

  lemma UsageKeepsInv(r: Record, attemptId: Id, usage: CallUsage)
    requires Inv(r)
    ensures var next := RecordUsageIn(r, attemptId, usage);
      Inv(next) && Participants(next.attempts) == Participants(r.attempts) && next.candidates == r.candidates
  {
    var k := AttemptIndex(r.attempts, attemptId);
    var next := RecordUsageIn(r, attemptId, usage);
    if k < |r.attempts| {
      if next != r {
        RewritingAttempt(r, k, r.attempts[k].(usage := Some(usage)));
        JudgedSurvives(r, next);
      }
    } else if next != r {
      RewritingEvaluator(r, next.evaluator.value);
    }
  }

  lemma CallFailedKeepsInv(r: Record, attemptId: Id, unknown: bool, error: string)
    requires Inv(r)
    ensures var next := CallFailedIn(r, attemptId, unknown, error);
      Inv(next) && Participants(next.attempts) == Participants(r.attempts) && next.candidates == r.candidates
  {
    var k := AttemptIndex(r.attempts, attemptId);
    var next := CallFailedIn(r, attemptId, unknown, error);
    if next != r {
      RewritingAttempt(r, k, next.attempts[k]);
      JudgedSurvives(r, next);
    }
  }

  lemma EvaluatorStepsKeepInv(r: Record, e: EvaluatorAttempt, s: Status)
    requires Inv(r) && r.evaluator.Some? && (s == r.status || s.Broken?)
    ensures Inv(r.(evaluator := Some(e), status := s))
  {
    RewritingEvaluator(r, e);
    JudgedSurvives(r, r.(evaluator := Some(e), status := s));
  }

  // ---------------------------------------------------------------- the world

  /** Where one `runCompetition` caller stands between two atomic accesses to the record. */
  datatype Caller =
    | AtStart(agent: Id)
    | Begun(agent: Id)
    | Looping(agent: Id, i: nat)
    | Reserving(agent: Id, i: nat)
    | Calling(agent: Id, i: nat, attemptId: Id)
    | ReservingEvaluator(agent: Id, seen: seq<Envelope>)
    | CallingEvaluator(agent: Id, attemptId: Id, seen: seq<Envelope>)
    | Finishing
    | Failing
    | Done

  /** `ran` logs the participants whose runner was called, `judged` what evaluators were shown. */
  datatype World = World(record: Record, callers: map<nat, Caller>, ran: seq<Id>, judged: seq<seq<Envelope>>)

  datatype Reply = Candidate(e: Envelope) | Scores(scores: seq<Score>) | CallError(unknown: bool, error: string)

  datatype Event =
    | Spawn(c: nat, agent: Id)
    | Advance(c: nat, freshId: Id, reply: Reply)
    | Crash(c: nat)
    | Submit(e: Envelope)
    | BeginEvaluation(agent: Id)
    | SubmitScore(agent: Id, score: Score)
    | ReportUsage(attemptId: Id, usage: CallUsage)
    | Reconcile(attemptId: Id, body: Reconciliation)
    | ReconcileEvaluator(attemptId: Id, verdict: EvaluatorReconciliation)
    | Finish
    | Fail
    | FinalizePartial

  function Stored(r: Record, o: Outcome): Record { match o case Ok(next) => next case Err(_) => r }

  /** The runner's reply is accepted only when it is bound to the participant and the brief. */
  predicate Usable(r: Record, participant: Id, reply: Reply) {
    reply.Candidate? && reply.e.agent == participant && BoundTo(r.brief, reply.e)
  }

  ghost function CallerRead(r: Record, c: Caller): Caller {
    match c
    case AtStart(agent) =>
      if r.status.Evaluating? && r.evaluator.Some? && Waiting(r.evaluator.value.state) then Done
      else if r.status.Evaluating? && r.evaluator.Some? && r.evaluator.value.state.Completed? then Finishing
      else if !Open(r.status) || agent in r.brief.participants then Done
      else Begun(agent)
    case Looping(agent, i) =>
      if i < |r.brief.participants| then
        var p := r.brief.participants[i];
        if HasCandidate(r.candidates, p) then Looping(agent, i + 1)
        else if !Open(r.status) || AnyWaiting(r.attempts) then Done
        else if GivenUp(r.attempts, p) then Looping(agent, i + 1)
        else if !Fits(r.brief.budget, Calls(r), true) then Failing
        else Reserving(agent, i)
      else if !r.status.Running? || AnyWaiting(r.attempts) then Done
      else if r.candidates == [] || !Fits(r.brief.budget, Calls(r), true) then Failing
      else ReservingEvaluator(agent, r.candidates)
    case _ => c
  }

  /** `attempts.find(...)` is failed or reconciled. */
  predicate GivenUp(attempts: seq<Attempt>, participant: Id) {
    exists i :: 0 <= i < |attempts| && attempts[i].participant == participant
      && (attempts[i].state.Failed? || attempts[i].state.Reconciled?)
      && forall j :: 0 <= j < i ==> attempts[j].participant != participant
  }

  /** One atomic step of a caller. */
  ghost function AdvanceCaller(w: World, c: Caller, freshId: Id, reply: Reply): (World, Caller) {
    var r := w.record;
    match c
    case AtStart(_) => (w, CallerRead(r, c))
    case Begun(agent) => (w.(record := StartIn(r)), Looping(agent, 0))
    case Looping(_, _) => (w, CallerRead(r, c))
    case Reserving(agent, i) =>
      if i >= |r.brief.participants| then (w, Done)
      else (match ReserveIn(r, r.brief.participants[i], freshId)
        case Err(_) => (w, Failing)
        case Ok(stored) =>
          if stored.1 then (w.(record := stored.0, ran := w.ran + [r.brief.participants[i]]), Calling(agent, i, freshId))
          else (w.(record := stored.0), Done))
    case Calling(agent, i, attemptId) =>
      if i >= |r.brief.participants| then (w, Done)
      else if Usable(r, r.brief.participants[i], reply) then (w.(record := SettleIn(r, attemptId, reply.e)), Looping(agent, i + 1))
      else (w.(record := CallFailedIn(r, attemptId, reply.CallError? && reply.unknown, "failed")), Looping(agent, i + 1))
    case ReservingEvaluator(agent, seen) =>
      (match ReserveEvaluatorIn(r, agent, freshId)
        case Err(_) => (w, Failing)
        case Ok(stored) =>
          if stored.1 then (w.(record := stored.0, judged := w.judged + [seen]), CallingEvaluator(agent, freshId, seen))
          else (w.(record := stored.0), Done))
    case CallingEvaluator(_, attemptId, _) =>
      if reply.Scores? then (w.(record := SettleEvaluatorIn(r, attemptId, reply.scores)), Finishing)
      else (w.(record := EvaluatorFailedIn(r, attemptId, reply.CallError? && reply.unknown, "failed")), Done)
    case Finishing => (w.(record := FinishIn(r)), Done)
    case Failing => (w.(record := FailIn(r)), Done)
    case Done => (w, Done)
  }

  /** The calls that do not come from a `runCompetition` caller. */
  ghost function ServiceNext(r: Record, e: Event): Record {
    match e
    case Submit(candidate) => Stored(r, SubmitCandidateIn(r, candidate))
    case BeginEvaluation(agent) => Stored(r, BeginEvaluationIn(r, agent))
    case SubmitScore(agent, score) => Stored(r, SubmitScoreIn(r, agent, score))
    case ReportUsage(id, usage) => RecordUsageIn(r, id, usage)
    case Reconcile(id, body) => Stored(r, ReconcileIn(r, id, body))
    case ReconcileEvaluator(id, verdict) => Stored(r, ReconcileEvaluatorIn(r, id, verdict))
    case Finish => FinishIn(r)
    case Fail => FailIn(r)
    case FinalizePartial => FinalizePartialIn(r)
    case _ => r
  }

  ghost function Next(w: World, e: Event): World {
    match e
    case Spawn(c, agent) => if c in w.callers then w else w.(callers := w.callers[c := AtStart(agent)])
    case Advance(c, freshId, reply) =>
      if c !in w.callers then w
      else
        var step := AdvanceCaller(w, w.callers[c], freshId, reply);
        step.0.(callers := w.callers[c := step.1])
    case Crash(c) => w.(callers := w.callers - {c})
    case _ => w.(record := ServiceNext(w.record, e))
  }

  ghost function Run(w: World, events: seq<Event>): World {
    if events == [] then w else Next(Run(w, events[..|events| - 1]), events[|events| - 1])
  }

  /** A caller about to reserve the evaluator saw a prefix of the candidates. */
  ghost predicate SawPrefix(r: Record, c: Caller) {
    (c.ReservingEvaluator? || c.CallingEvaluator?) ==> c.seen <= r.candidates
  }

  /** The logs agree with the record. */
  ghost predicate Tracked(w: World) {
    && w.ran == Participants(w.record.attempts)
    && |w.judged| == (if w.record.evaluator.Some? then 1 else 0)
    && (forall i :: 0 <= i < |w.judged| ==> w.judged[i] <= w.record.candidates)
  }

  ghost predicate WorldInv(w: World) {
    Inv(w.record) && Tracked(w) && forall c :: c in w.callers ==> SawPrefix(w.record, w.callers[c])
  }

  /** Candidates only grow, and freeze once an evaluator is reserved. */
  ghost predicate Grows(r: Record, next: Record) {
    && next.brief == r.brief && r.candidates <= next.candidates
    && (r.evaluator.Some? ==> next.evaluator.Some? && next.candidates == r.candidates && next.evaluator.value.id == r.evaluator.value.id)
  }

  /** A step that neither reserves an attempt nor the evaluator. */
  ghost predicate Kept(r: Record, next: Record) {
    && Inv(next) && Grows(r, next) && Participants(next.attempts) == Participants(r.attempts)
    && (next.evaluator.Some? <==> r.evaluator.Some?)
  }

  ghost predicate Stepped(w: World, next: World, c: Caller) {
    Inv(next.record) && Grows(w.record, next.record) && next.callers == w.callers && Tracked(next) && SawPrefix(next.record, c)
  }

  lemma KeptIsStepped(w: World, next: Record, c: Caller)
    requires Tracked(w) && Kept(w.record, next) && SawPrefix(next, c)
    ensures Stepped(w, w.(record := next), c)
  {}

  lemma SubmitIsKept(r: Record, e: Envelope)
    requires Inv(r) && SubmitCandidateIn(r, e).Ok?
    ensures Kept(r, SubmitCandidateIn(r, e).value)
  {
    AddCandidateKeepsInv(r, e);
    JudgedWithCandidate(r, AddCandidate(r, e));
  }

  lemma BeginIsKept(r: Record, agent: Id)
    requires Inv(r) && BeginEvaluationIn(r, agent).Ok?
    ensures Kept(r, BeginEvaluationIn(r, agent).value)
  {
    JudgedWithCandidate(r, BeginEvaluationIn(r, agent).value);
  }

  /** With an evaluator reserved no attempt waits, so no reply can add a candidate. */
  lemma SettleIsKept(r: Record, attemptId: Id, e: Envelope)
    requires Inv(r) && BoundTo(r.brief, e) && e.agent in r.brief.participants
    ensures Kept(r, SettleIn(r, attemptId, e))
  {
    var k := AttemptIndex(r.attempts, attemptId);
    if k < |r.attempts| && r.attempts[k].state.Started? { assert AnyWaiting(r.attempts); }
    SettleKeepsInv(r, attemptId, e);
  }

  lemma ReconcileIsKept(r: Record, attemptId: Id, body: Reconciliation)
    requires Inv(r) && ReconcileIn(r, attemptId, body).Ok?
    ensures Kept(r, ReconcileIn(r, attemptId, body).value)
  {
    ReconcileKeepsInv(r, attemptId, body);
    assert AnyWaiting(r.attempts);
  }

  lemma UsageIsKept(r: Record, attemptId: Id, usage: CallUsage)
    requires Inv(r)
    ensures Kept(r, RecordUsageIn(r, attemptId, usage))
  {
    UsageKeepsInv(r, attemptId, usage);
  }

  lemma EvaluatorFailureIsKept(r: Record, attemptId: Id, unknown: bool, error: string)
    requires Inv(r)
    ensures Kept(r, EvaluatorFailedIn(r, attemptId, unknown, error))
  {
    if EvaluatorStarted(r, attemptId) {
      var next := EvaluatorFailedIn(r, attemptId, unknown, error);
      EvaluatorStepsKeepInv(r, next.evaluator.value, next.status);
    }
  }

  lemma ReconcileEvaluatorIsKept(r: Record, attemptId: Id, verdict: EvaluatorReconciliation)
    requires Inv(r) && ReconcileEvaluatorIn(r, attemptId, verdict).Ok?
    ensures Kept(r, ReconcileEvaluatorIn(r, attemptId, verdict).value)
  {
    var next := ReconcileEvaluatorIn(r, attemptId, verdict).value;
    EvaluatorStepsKeepInv(r, next.evaluator.value, next.status);
  }

  lemma ScoreIsKept(r: Record, agent: Id, score: Score)
    requires Inv(r) && SubmitScoreIn(r, agent, score).Ok?
    ensures Kept(r, SubmitScoreIn(r, agent, score).value)
  {
    SubmitScoreKeepsInv(r, agent, score);
  }

  lemma StatusIsKept(r: Record, next: Record)
    requires Inv(r) && (next == StartIn(r) || next == FailIn(r) || next == FinalizePartialIn(r))
    ensures Kept(r, next)
  {
    JudgedSurvives(r, next);
  }

  lemma ServiceStep(r: Record, e: Event)
    requires Inv(r)
    ensures Kept(r, ServiceNext(r, e))
  {
    match e
    case Submit(c) => if SubmitCandidateIn(r, c).Ok? { SubmitIsKept(r, c); }
    case BeginEvaluation(agent) => if BeginEvaluationIn(r, agent).Ok? { BeginIsKept(r, agent); }
    case SubmitScore(agent, score) => if SubmitScoreIn(r, agent, score).Ok? { ScoreIsKept(r, agent, score); }
    case ReportUsage(id, usage) => UsageIsKept(r, id, usage);
    case Reconcile(id, body) => if ReconcileIn(r, id, body).Ok? { ReconcileIsKept(r, id, body); }
    case ReconcileEvaluator(id, verdict) => if ReconcileEvaluatorIn(r, id, verdict).Ok? { ReconcileEvaluatorIsKept(r, id, verdict); }
    case Finish => FinishKeepsInv(r);
    case Fail => StatusIsKept(r, FailIn(r));
    case FinalizePartial => StatusIsKept(r, FinalizePartialIn(r));
    case _ =>
  }

  lemma ReservingStep(w: World, agent: Id, i: nat, freshId: Id, reply: Reply)
    requires WorldInv(w)
    ensures var (w', c') := AdvanceCaller(w, Reserving(agent, i), freshId, reply); Stepped(w, w', c')
  {
    var r := w.record;
    if i < |r.brief.participants| && ReserveIn(r, r.brief.participants[i], freshId).Ok? {
      ReserveKeepsInv(r, r.brief.participants[i], freshId);
    }
  }

  lemma ReservingEvaluatorStep(w: World, agent: Id, seen: seq<Envelope>, freshId: Id, reply: Reply)
    requires WorldInv(w) && seen <= w.record.candidates
    ensures var (w', c') := AdvanceCaller(w, ReservingEvaluator(agent, seen), freshId, reply); Stepped(w, w', c')
  {
    if ReserveEvaluatorIn(w.record, agent, freshId).Ok? { ReserveEvaluatorKeepsInv(w.record, agent, freshId); }
  }

  lemma CallingStep(w: World, agent: Id, i: nat, attemptId: Id, freshId: Id, reply: Reply)
    requires WorldInv(w)
    ensures var (w', c') := AdvanceCaller(w, Calling(agent, i, attemptId), freshId, reply); Stepped(w, w', c')
  {
    var r := w.record;
    if i < |r.brief.participants| {
      if Usable(r, r.brief.participants[i], reply) {
        SettleIsKept(r, attemptId, reply.e);
        KeptIsStepped(w, SettleIn(r, attemptId, reply.e), Looping(agent, i + 1));
      } else {
        CallFailedKeepsInv(r, attemptId, reply.CallError? && reply.unknown, "failed");
      }
    }
  }

  lemma CallingEvaluatorStep(w: World, agent: Id, attemptId: Id, seen: seq<Envelope>, freshId: Id, reply: Reply)
    requires WorldInv(w) && seen <= w.record.candidates
    ensures var (w', c') := AdvanceCaller(w, CallingEvaluator(agent, attemptId, seen), freshId, reply); Stepped(w, w', c')
  {
    var r := w.record;
    if !reply.Scores? {
      EvaluatorFailureIsKept(r, attemptId, reply.CallError? && reply.unknown, "failed");
    } else if EvaluatorStarted(r, attemptId) {
      EvaluatorStepsKeepInv(r, r.evaluator.value.(state := Completed, scores := reply.scores), r.status);
    }
  }

  lemma ReadingStep(w: World, c: Caller, freshId: Id, reply: Reply)
    requires WorldInv(w) && (c.AtStart? || c.Looping? || c.Done?)
    ensures var (w', c') := AdvanceCaller(w, c, freshId, reply); Stepped(w, w', c')
  {}

  lemma StatusStep(w: World, c: Caller, freshId: Id, reply: Reply)
    requires WorldInv(w) && (c.Begun? || c.Finishing? || c.Failing?)
    ensures var (w', c') := AdvanceCaller(w, c, freshId, reply); Stepped(w, w', c')
  {
    var r := w.record;
    if c.Finishing? {
      FinishKeepsInv(r);
      KeptIsStepped(w, FinishIn(r), Done);
    } else {
      var next := if c.Begun? then StartIn(r) else FailIn(r);
      StatusIsKept(r, next);
      KeptIsStepped(w, next, Done);
    }
  }

  lemma CallerStep(w: World, c: Caller, freshId: Id, reply: Reply)
    requires WorldInv(w) && SawPrefix(w.record, c)
    ensures var (w', c') := AdvanceCaller(w, c, freshId, reply); Stepped(w, w', c')
  {
    match c
    case Reserving(agent, i) => ReservingStep(w, agent, i, freshId, reply);
    case Calling(agent, i, attemptId) => CallingStep(w, agent, i, attemptId, freshId, reply);
    case ReservingEvaluator(agent, seen) => ReservingEvaluatorStep(w, agent, seen, freshId, reply);
    case CallingEvaluator(agent, attemptId, seen) => CallingEvaluatorStep(w, agent, attemptId, seen, freshId, reply);
    case _ =>
      if c.Begun? || c.Finishing? || c.Failing? { StatusStep(w, c, freshId, reply); } else { ReadingStep(w, c, freshId, reply); }
  }

  lemma AdvanceKeepsWorldInv(w: World, c: nat, freshId: Id, reply: Reply)
    requires WorldInv(w) && c in w.callers
    ensures WorldInv(Next(w, Advance(c, freshId, reply))) && Grows(w.record, Next(w, Advance(c, freshId, reply)).record)
  {
    var call := w.callers[c];
    CallerStep(w, call, freshId, reply);
    var step := AdvanceCaller(w, call, freshId, reply);
    assert Stepped(w, step.0, step.1);
  }

  lemma ServiceKeepsWorldInv(w: World, e: Event)
    requires WorldInv(w)
    ensures var next := w.(record := ServiceNext(w.record, e)); WorldInv(next) && Grows(w.record, next.record)
  {
    ServiceStep(w.record, e);
    KeptIsStepped(w, ServiceNext(w.record, e), Done);
  }

  lemma StepKeepsWorldInv(w: World, e: Event)
    requires WorldInv(w)
    ensures WorldInv(Next(w, e)) && Grows(w.record, Next(w, e).record)
  {
    match e
    case Spawn(_, _) =>
    case Advance(c, freshId, reply) => if c in w.callers { AdvanceKeepsWorldInv(w, c, freshId, reply); }
    case Crash(_) =>
    case _ => ServiceKeepsWorldInv(w, e);
  }

  ghost predicate NewWorld(w: World) { New(w.record) && w.callers == map[] && w.ran == [] && w.judged == [] }

  lemma {:induction false} EveryRunKeepsWorldInv(w: World, events: seq<Event>)
    requires WorldInv(w)
    ensures WorldInv(Run(w, events)) && Grows(w.record, Run(w, events).record)
  {
    if events != [] {
      EveryRunKeepsWorldInv(w, events[..|events| - 1]);
      StepKeepsWorldInv(Run(w, events[..|events| - 1]), events[|events| - 1]);
    }
  }

  // ---------------------------------------------------------------- main results

  /** Over every interleaving each participant's runner and the evaluator are called at most
      once, at most one attempt, the latest, is waiting, and none while the evaluator is. */
  lemma CalledAtMostOnce(w: World, events: seq<Event>)
    requires NewWorld(w)
    ensures var now := Run(w, events);
      && NoDuplicates(now.ran) && now.ran == Participants(now.record.attempts)
      && |now.judged| <= 1 && (|now.judged| == 1 <==> now.record.evaluator.Some?)
      && SettledButLatest(now.record.attempts)
      && (AnyWaiting(now.record.attempts) ==> now.record.evaluator.None?)
      && (forall p :: p in now.ran ==> p in now.record.brief.participants)
  {
    NewIsInv(w.record);
    EveryRunKeepsWorldInv(w, events);
  }

  /** Budget overshoot is at most one call, the evaluator's included. */
  lemma OvershootIsOneCall(w: World, events: seq<Event>)
    requires NewWorld(w)
    ensures OvershootsByOneCall(Run(w, events).record.brief.budget, Calls(Run(w, events).record))
  {
    NewIsInv(w.record);
    EveryRunKeepsWorldInv(w, events);
  }

  predicate Reconciles(e: Event) { e.Reconcile? || e.ReconcileEvaluator? }

  predicate AnyReconciles(events: seq<Event>) { exists i :: 0 <= i < |events| && Reconciles(events[i]) }

  /** An attempt that left `started` keeps its value, unless it is unknown and gets reconciled. */
  ghost predicate AttemptKept(r: Record, next: Record, k: nat, reconciled: bool) {
    k < |r.attempts| && !r.attempts[k].state.Started? && (r.attempts[k].state.Unknown? ==> !reconciled) ==>
      k < |next.attempts| && next.attempts[k] == r.attempts[k]
  }

  ghost predicate EvaluatorKept(r: Record, next: Record, reconciled: bool) {
    r.evaluator.Some? && !r.evaluator.value.state.Started? && (r.evaluator.value.state.Unknown? ==> !reconciled) ==>
      next.evaluator == r.evaluator
  }

  lemma ServiceKeepsSettled(r: Record, e: Event, k: nat)
    ensures AttemptKept(r, ServiceNext(r, e), k, Reconciles(e)) && EvaluatorKept(r, ServiceNext(r, e), Reconciles(e))
  {}

  lemma CallerKeepsSettled(w: World, c: Caller, freshId: Id, reply: Reply, k: nat)
    ensures var (w', c') := AdvanceCaller(w, c, freshId, reply);
      AttemptKept(w.record, w'.record, k, false) && EvaluatorKept(w.record, w'.record, false)
  {}

  lemma StepKeepsSettled(w: World, e: Event, k: nat)
    ensures AttemptKept(w.record, Next(w, e).record, k, Reconciles(e)) && EvaluatorKept(w.record, Next(w, e).record, Reconciles(e))
  {
    if e.Advance? {
      if e.c in w.callers { CallerKeepsSettled(w, w.callers[e.c], e.freshId, e.reply, k); }
    } else {
      ServiceKeepsSettled(w.record, e, k);
    }
  }

  /** Whatever reply, report or failure still comes, in every continuation of a run: an attempt or
      an evaluator attempt that left `started` never changes, except an unknown one by reconciliation. */
  lemma {:induction false} LateRepliesChangeNothing(w: World, events: seq<Event>, k: nat)
    ensures AttemptKept(w.record, Run(w, events).record, k, AnyReconciles(events))
    ensures EvaluatorKept(w.record, Run(w, events).record, AnyReconciles(events))
  {
    if events != [] {
      var n := |events| - 1;
      LateRepliesChangeNothing(w, events[..n], k);
      StepKeepsSettled(Run(w, events[..n]), events[n], k);
      assert Reconciles(events[n]) ==> AnyReconciles(events);
      if i :| 0 <= i < n && Reconciles(events[..n][i]) { assert Reconciles(events[i]); }
    }
  }

  /** From the evaluator's reservation on, the candidate list never changes again. */
  lemma CandidatesAreFrozen(w: World, before: seq<Event>, after: seq<Event>)
    requires NewWorld(w) && Run(w, before).record.evaluator.Some?
    ensures Run(Run(w, before), after).record.candidates == Run(w, before).record.candidates
  {
    NewIsInv(w.record);
    EveryRunKeepsWorldInv(w, before);
    EveryRunKeepsWorldInv(Run(w, before), after);
  }

  /** Stored scores that can be applied: the budget holds and each names its own candidate. */
  ghost predicate Applicable(r: Record) {
    && r.status.Evaluating? && r.evaluator.Some? && r.evaluator.value.state.Completed?
    && Fits(r.brief.budget, Calls(r), false) && DecodeScores(r, r.evaluator.value.scores).Some?
  }

  /** Finishing the evaluation of any reachable record completes it if and only if it is affordable,
      its participants are distinct and each of them has a candidate and a score. Otherwise it is
      partial, and failed when the scores cannot be applied. */
  lemma FinishingMeans(w: World, events: seq<Event>)
    requires NewWorld(w)
    requires var r := Run(w, events).record; r.status.Evaluating? && r.evaluator.Some? && r.evaluator.value.state.Completed?
    ensures var r := Run(w, events).record; var next := FinishIn(r);
      && (next.status.Finished? <==>
            Applicable(r) && !TooCostly(r) && NoDuplicates(r.brief.participants) && Covered(r, DecodeScores(r, r.evaluator.value.scores).value))
      && (next.status.Broken? <==> !Applicable(r)) && (next.status.Finished? || next.status.Partial? || next.status.Broken?)
      && (next.selected.Some? <==>
            Applicable(r) && !TooCostly(r) && exists i :: 0 <= i < |next.scores| && next.scores[i].accepted)
      && (next.selected.Some? ==> exists i: nat :: BestAt(next.scores, i) && next.scores[i].agent == next.selected.value)
  {
    NewIsInv(w.record);
    EveryRunKeepsWorldInv(w, events);
    var r := Run(w, events).record;
    if Applicable(r) {
      var scores := DecodeScores(r, r.evaluator.value.scores).value;
      DecodedScoresAreGood(r, r.evaluator.value.scores);
      FullMeansCovered(r, scores);
      var i := BestIsFirstMaximum(scores);
    }
  }

  /** The final verdict in every reachable record: a finished competition is affordable and has a
      candidate and a score for every participant, all of them distinct; a selection is accepted,
      maximal and affordable. */
  lemma VerdictsAreProper(w: World, events: seq<Event>)
    requires NewWorld(w)
    ensures var r := Run(w, events).record;
      && (r.status.Finished? ==> !TooCostly(r) && NoDuplicates(r.brief.participants) && Covered(r, r.scores))
      && (r.selected.Some? ==> ProperlySelected(r, r.selected.value) && HasCandidate(r.candidates, r.selected.value))
      && (TooCostly(r) ==> r.selected.None?)
      && r.totalCost == Cost(r.candidates)
      && NoDuplicates(Agents(r.candidates)) && (forall a :: a in Agents(r.candidates) ==> a in r.brief.participants)
  {
    NewIsInv(w.record);
    EveryRunKeepsWorldInv(w, events);
    FullMeansCovered(Run(w, events).record, Run(w, events).record.scores);
  }

  lemma OneCandidate(r: Record, e: Envelope)
    requires New(r) && r.brief.budget.None? && e.agent in r.brief.participants && BoundTo(r.brief, e)
    ensures ServiceNext(r, Submit(e)) == r.(candidates := [e], totalCost := Cost([e]))
  {
    assert [] + [e] == [e];
  }

  lemma OneScore(r: Record, e: Envelope, judge: Id, score: Score)
    requires r.candidates == [e] && r.scores == [] && r.status.Evaluating? && r.evaluatorAgent == Some(judge)
    requires r.brief.budget.None? && !r.brief.blind && score.agent == e.agent
    ensures ServiceNext(r, SubmitScore(judge, score)) == Conclude(r, [score], FullField(r))
  {
    assert HasCandidate(r.candidates, r.candidates[0].agent);
    assert [] + [score.(agent := score.agent)] == [score];
  }

  /** Nothing keeps a brief from listing a participant twice, and then a candidate and a score of
      everyone are not enough: the competition ends as partial. */
  lemma RepeatedParticipantEndsPartial(w: World, e: Envelope, judge: Id, score: Score)
    requires NewWorld(w) && w.record.brief.participants == [e.agent, e.agent] && BoundTo(w.record.brief, e) && judge != e.agent
    requires w.record.brief.budget.None? && !w.record.brief.blind && score.agent == e.agent
    ensures var r := Run(w, [Submit(e)] + [BeginEvaluation(judge)] + [SubmitScore(judge, score)]).record;
      r.status.Partial? && r.candidates == [e] && r.scores == [score] && Covered(r, r.scores)
  {
    RunExtends(w, [], Submit(e));
    RunExtends(w, [Submit(e)], BeginEvaluation(judge));
    RunExtends(w, [Submit(e)] + [BeginEvaluation(judge)], SubmitScore(judge, score));
    assert [] + [Submit(e)] == [Submit(e)];
    OneCandidate(w.record, e);
    var begun := Run(w, [Submit(e)] + [BeginEvaluation(judge)]).record;
    OneScore(begun, e, judge, score);
    assert HasCandidate([e], [e][0].agent) && HasScore([score], [score][0].agent);
  }

  lemma RunExtends(w: World, events: seq<Event>, e: Event)
    ensures Run(w, events + [e]) == Next(Run(w, events), e)
  {
    assert (events + [e])[..|events|] == events;
  }

  // ---------------------------------------------------------------- aliases decode

  lemma {:induction false} DecimalIsInjective(m: nat, n: nat)
    requires Decimal(m) == Decimal(n)
    ensures m == n
    decreases m
  {
    var a, b := Decimal(m), Decimal(n);
    assert a[|a| - 1] == b[|b| - 1];
    DigitIsInjective(m % 10, n % 10);
    if m >= 10 && n >= 10 {
      assert a[..|a| - 1] == Decimal(m / 10) && b[..|b| - 1] == Decimal(n / 10);
      DecimalIsInjective(m / 10, n / 10);
    } else if m >= 10 {
      assert |Decimal(m / 10)| == 0;
      DecimalIsNonempty(m / 10);
    } else if n >= 10 {
      assert |Decimal(n / 10)| == 0;
      DecimalIsNonempty(n / 10);
    }
  }

  lemma DecimalIsNonempty(n: nat)
    ensures |Decimal(n)| > 0 && Decimal(n)[|Decimal(n)| - 1] == Digit(n % 10)
  {}

  lemma DigitIsInjective(m: nat, n: nat)
    requires m < 10 && n < 10
    ensures Digit(m) == Digit(n) ==> m == n
  {}

  lemma AliasIsInjective(m: nat, n: nat)
    ensures Alias(m) == Alias(n) <==> m == n
  {
    if Alias(m) == Alias(n) {
      assert Decimal(m) == Alias(m)[10..] && Decimal(n) == Alias(n)[10..];
      DecimalIsInjective(m, n);
    }
  }

  lemma {:induction false} UnaliasDecodes(candidates: seq<Envelope>, k: nat)
    requires k < |candidates|
    ensures Unalias(candidates, Alias(k + 1)) == Some(candidates[k].agent)
  {
    AliasIsInjective(|candidates|, k + 1);
    if k + 1 < |candidates| { UnaliasDecodes(candidates[..|candidates| - 1], k); }
  }

  /** Whenever a blind evaluator is called, and however the run goes on, the alias on each
      envelope it was shown decodes to the agent that wrote that envelope. */
  lemma BlindAliasesDecode(w: World, events: seq<Event>, k: nat)
    requires NewWorld(w)
    requires var now := Run(w, events); |now.judged| == 1 && k < |now.judged[0]| && now.record.brief.blind
    ensures var now := Run(w, events); var shown := Blinded(now.judged[0]);
      && shown[k] == now.judged[0][k].(agent := Alias(k + 1))
      && k < |now.record.candidates| && now.record.candidates[k] == now.judged[0][k]
      && Decode(now.record, shown[k].agent) == now.judged[0][k].agent
  {
    NewIsInv(w.record);
    EveryRunKeepsWorldInv(w, events);
    var now := Run(w, events);
    assert now.judged[0] <= now.record.candidates;
    UnaliasDecodes(now.record.candidates, k);
  }
}
