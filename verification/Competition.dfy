/** The durable competition record of src/collaboration-service.ts: candidates run one at a
    time behind durable attempts, one evaluator sees blind aliases, and its stored scores are
    applied atomically. Every method is one `mutateCompetition` callback; a callback that
    throws stores nothing. */
module Competition {
  import opened Basics
  import opened Budget

  datatype Envelope = Envelope(agent: Id, taskId: Id, contextVersion: Id, resultType: string, money: Option<real>, body: string)

  datatype Score = Score(agent: Id, score: real, accepted: bool)

  datatype Brief = Brief(
    taskId: Id, contextVersion: Id, resultType: string, participants: seq<Id>, budget: Option<Limits>,
    maxCost: Option<real>, blind: bool)

  datatype AttemptState = Started | Completed | Failed | Reconciled | Unknown

  datatype Attempt = Attempt(
    id: Id, participant: Id, state: AttemptState, usage: Option<CallUsage>, result: Option<Envelope>, error: Option<string>)

  datatype EvaluatorAttempt = EvaluatorAttempt(
    id: Id, state: AttemptState, usage: Option<CallUsage>, scores: seq<Score>, error: Option<string>)

  datatype Status = Collecting | Running | Evaluating | Finished | Partial | Broken

  datatype Record = Record(
    brief: Brief, status: Status, candidates: seq<Envelope>, scores: seq<Score>, attempts: seq<Attempt>,
    evaluator: Option<EvaluatorAttempt>, evaluatorAgent: Option<Id>, selected: Option<Id>, totalCost: real)

  datatype Failure =
    | NotCollecting | MustBeManaged | NotAParticipant | Unbound | AlreadySubmitted | NoCandidates | NotIndependent
    | NotThisEvaluator | OverBudget | EvaluatorUnsettled | UnknownCandidate | AlreadyScored | UnknownAttempt | NotWaiting
    | ScoresMissing

  type Outcome = Result<Record, Failure>

  predicate Waiting(s: AttemptState) { s.Started? || s.Unknown? }

  predicate AnyWaiting(attempts: seq<Attempt>) { exists i :: 0 <= i < |attempts| && Waiting(attempts[i].state) }

  predicate Open(s: Status) { s.Collecting? || s.Running? }

  function UsageOf(attempts: seq<Attempt>): Reports {
    seq(|attempts|, i requires 0 <= i < |attempts| => attempts[i].usage)
  }

  /** `competitionCalls`: the participants' attempts, then the evaluator's. */
  function Calls(r: Record): Reports {
    UsageOf(r.attempts) + (if r.evaluator.Some? then [r.evaluator.value.usage] else [])
  }

  predicate HasAttempt(attempts: seq<Attempt>, participant: Id) {
    exists i :: 0 <= i < |attempts| && attempts[i].participant == participant
  }

  predicate HasCandidate(candidates: seq<Envelope>, agent: Id) {
    exists i :: 0 <= i < |candidates| && candidates[i].agent == agent
  }

  predicate HasScore(scores: seq<Score>, agent: Id) {
    exists i :: 0 <= i < |scores| && scores[i].agent == agent
  }

  function AttemptIndex(attempts: seq<Attempt>, id: Id): (k: nat)
    ensures k <= |attempts|
    ensures k < |attempts| ==> attempts[k].id == id
    ensures forall j :: 0 <= j < k ==> attempts[j].id != id
  {
    if attempts == [] then 0
    else
      var k := AttemptIndex(attempts[..|attempts| - 1], id);
      if k < |attempts| - 1 || attempts[|attempts| - 1].id == id then k else |attempts|
  }

  function Cost(candidates: seq<Envelope>): real {
    if candidates == [] then 0.0
    else
      var last := candidates[|candidates| - 1];
      Cost(candidates[..|candidates| - 1]) + (if last.money.Some? then last.money.value else 0.0)
  }

  predicate BoundTo(brief: Brief, e: Envelope) {
    e.taskId == brief.taskId && e.contextVersion == brief.contextVersion && e.resultType == brief.resultType
  }

  function AddCandidate(r: Record, e: Envelope): Record {
    if HasCandidate(r.candidates, e.agent) then r
    else r.(candidates := r.candidates + [e], totalCost := Cost(r.candidates + [e]))
  }

  // ---------------------------------------------------------------- blind aliases

  function Digit(d: nat): char
    requires d < 10
  {
    "0123456789"[d]
  }

  function Decimal(n: nat): string {
    if n < 10 then [Digit(n)] else Decimal(n / 10) + [Digit(n % 10)]
  }

  /** The alias of the k-th candidate, counted from one. */
  function Alias(k: nat): Id { "candidate_" + Decimal(k) }

  /** What a blind evaluator receives. */
  function Blinded(candidates: seq<Envelope>): seq<Envelope> {
    seq(|candidates|, k requires 0 <= k < |candidates| => candidates[k].(agent := Alias(k + 1)))
  }

  /** `aliases.get(id)`, the last entry winning as in a Map. */
  function Unalias(candidates: seq<Envelope>, id: Id): Option<Id> {
    if candidates == [] then None
    else if Alias(|candidates|) == id then Some(candidates[|candidates| - 1].agent)
    else Unalias(candidates[..|candidates| - 1], id)
  }

  function Decode(r: Record, id: Id): Id {
    if !r.brief.blind then id
    else match Unalias(r.candidates, id)
      case Some(agent) => agent
      case None => id
  }

  // ---------------------------------------------------------------- selecting

  /** The first accepted score of maximal value: a stable descending sort, then its head. */
  function Best(scores: seq<Score>): Option<Score> {
    if scores == [] then None
    else
      var best, last := Best(scores[..|scores| - 1]), scores[|scores| - 1];
      if last.accepted && (best.None? || last.score > best.value.score) then Some(last) else best
  }

  predicate TooCostly(r: Record) { r.brief.maxCost.Some? && r.totalCost > r.brief.maxCost.value }

  predicate FullField(r: Record) { |r.candidates| == |r.brief.participants| }

  /** The record once `scores` are its final scores; `full` is what the caller takes for a full set. */
  function Conclude(r: Record, scores: seq<Score>, full: bool): Record {
    var best := if TooCostly(r) then None else Best(scores);
    var complete := !TooCostly(r) && full;
    r.(scores := scores, status := if complete then Finished else Partial,
       selected := if best.Some? then Some(best.value.agent) else r.selected)
  }

  /** Decoded scores, or None when one names an unknown or repeated candidate. */
  function DecodeScores(r: Record, raw: seq<Score>): Option<seq<Score>> {
    if raw == [] then Some([])
    else match DecodeScores(r, raw[..|raw| - 1])
      case None => None
      case Some(front) =>
        var last := raw[|raw| - 1];
        var agent := Decode(r, last.agent);
        if !HasCandidate(r.candidates, agent) || HasScore(front, agent) then None
        else Some(front + [last.(agent := agent)])
  }

  // ---------------------------------------------------------------- what each callback stores

  function SubmitCandidateIn(r: Record, e: Envelope): Outcome {
    if !r.status.Collecting? then Err(NotCollecting)
    else if r.brief.budget.Some? then Err(MustBeManaged)
    else if e.agent !in r.brief.participants then Err(NotAParticipant)
    else if !BoundTo(r.brief, e) then Err(Unbound)
    else if HasCandidate(r.candidates, e.agent) then Err(AlreadySubmitted)
    else Ok(AddCandidate(r, e))
  }

  function BeginEvaluationIn(r: Record, agent: Id): Outcome {
    if !r.status.Collecting? then Err(NotCollecting)
    else if r.candidates == [] then Err(NoCandidates)
    else if agent in r.brief.participants then Err(NotIndependent)
    else Ok(r.(status := Evaluating, evaluatorAgent := Some(agent)))
  }

  ghost function SubmitScoreIn(r: Record, agent: Id, score: Score): Outcome {
    if !r.status.Evaluating? || r.evaluatorAgent != Some(agent) then Err(NotThisEvaluator)
    else if !Fits(r.brief.budget, Calls(r), false) then Err(OverBudget)
    else if r.brief.budget.Some? && !(r.evaluator.Some? && r.evaluator.value.state.Completed?) then Err(EvaluatorUnsettled)
    else
      var actual := if r.brief.blind then Unalias(r.candidates, score.agent) else Some(score.agent);
      if actual.None? || !HasCandidate(r.candidates, actual.value) then Err(UnknownCandidate)
      else if HasScore(r.scores, actual.value) then Err(AlreadyScored)
      else
        var scores := r.scores + [score.(agent := actual.value)];
        if |scores| < |r.candidates| then Ok(r.(scores := scores)) else Ok(Conclude(r, scores, FullField(r)))
  }

  function StartIn(r: Record): Record { if Open(r.status) then r.(status := Running) else r }

  /** The stored record and whether this caller won the participant and runs it. */
  ghost function ReserveIn(r: Record, participant: Id, freshId: Id): Result<(Record, bool), Failure> {
    if !Open(r.status) || AnyWaiting(r.attempts) || HasAttempt(r.attempts, participant) then Ok((r, false))
    else if !Fits(r.brief.budget, Calls(r), true) then Err(OverBudget)
    else Ok((r.(attempts := r.attempts + [Attempt(freshId, participant, Started, None, None, None)], status := Running), true))
  }

  /** A bound reply; a reply that comes after the attempt left `started` changes nothing. */
  ghost function SettleIn(r: Record, attemptId: Id, e: Envelope): Record {
    var k := AttemptIndex(r.attempts, attemptId);
    if k == |r.attempts| || !r.attempts[k].state.Started? then r
    else
      var settled := r.(attempts := r.attempts[k := r.attempts[k].(state := Completed, result := Some(e))]);
      if !Fits(r.brief.budget, Calls(settled), false) then settled.(status := Broken) else AddCandidate(settled, e)
  }

  function CallFailedIn(r: Record, attemptId: Id, unknown: bool, error: string): Record {
    var k := AttemptIndex(r.attempts, attemptId);
    if k == |r.attempts| || !r.attempts[k].state.Started? then r
    else r.(attempts := r.attempts[k := r.attempts[k].(state := if unknown then Unknown else Failed, error := Some(error))])
  }

  function RecordUsageIn(r: Record, attemptId: Id, usage: CallUsage): Record {
    var k := AttemptIndex(r.attempts, attemptId);
    if k < |r.attempts| then
      if !r.attempts[k].state.Started? || r.attempts[k].usage.Some? then r
      else r.(attempts := r.attempts[k := r.attempts[k].(usage := Some(usage))])
    else if r.evaluator.Some? && r.evaluator.value.id == attemptId && r.evaluator.value.state.Started? && r.evaluator.value.usage.None?
    then r.(evaluator := Some(r.evaluator.value.(usage := Some(usage))))
    else r
  }

  datatype Reconciliation = Reconciliation(usage: Option<CallUsage>, result: Option<Envelope>, failed: bool, reason: string)

  ghost function ReconcileIn(r: Record, attemptId: Id, body: Reconciliation): Outcome {
    var k := AttemptIndex(r.attempts, attemptId);
    if k == |r.attempts| then Err(UnknownAttempt)
    else if !Waiting(r.attempts[k].state) then Err(NotWaiting)
    else
      var a := r.attempts[k].(usage := if body.usage.Some? then body.usage else r.attempts[k].usage);
      if body.failed then Ok(Reopened(r.(attempts := r.attempts[k := a.(state := Failed, error := Some(body.reason))])))
      else if body.result.None? || body.result.value.agent != a.participant || !BoundTo(r.brief, body.result.value) then Err(Unbound)
      else
        var settled := r.(attempts := r.attempts[k := a.(state := Reconciled, result := body.result)]);
        if !Fits(r.brief.budget, Calls(settled), false) then Ok(settled.(status := Broken))
        else Ok(Reopened(AddCandidate(settled, body.result.value)))
  }

  function Reopened(r: Record): Record { r.(status := if AnyWaiting(r.attempts) then Running else Collecting) }

  ghost function ReserveEvaluatorIn(r: Record, agent: Id, freshId: Id): Result<(Record, bool), Failure> {
    if !r.status.Running? || r.evaluator.Some? || AnyWaiting(r.attempts) then Ok((r, false))
    else if !Fits(r.brief.budget, Calls(r), true) then Err(OverBudget)
    else Ok((r.(evaluator := Some(EvaluatorAttempt(freshId, Started, None, [], None)), status := Evaluating,
                evaluatorAgent := Some(agent)), true))
  }

  predicate EvaluatorStarted(r: Record, attemptId: Id) {
    r.evaluator.Some? && r.evaluator.value.id == attemptId && r.evaluator.value.state.Started?
  }

  function SettleEvaluatorIn(r: Record, attemptId: Id, scores: seq<Score>): Record {
    if !EvaluatorStarted(r, attemptId) then r
    else r.(evaluator := Some(r.evaluator.value.(state := Completed, scores := scores)))
  }

  function EvaluatorFailedIn(r: Record, attemptId: Id, unknown: bool, error: string): Record {
    if !EvaluatorStarted(r, attemptId) then r
    else
      var e := r.evaluator.value.(state := if unknown then Unknown else Failed, error := Some(error));
      r.(evaluator := Some(e), status := if unknown then r.status else Broken)
  }

  datatype EvaluatorReconciliation = EvaluatorReconciliation(usage: Option<CallUsage>, scores: Option<seq<Score>>, reason: string)

  /** No scores stands for the outcome `failed`. */
  function ReconcileEvaluatorIn(r: Record, attemptId: Id, body: EvaluatorReconciliation): Outcome {
    if body.scores.Some? && body.scores.value == [] then Err(ScoresMissing)
    else if r.evaluator.None? || r.evaluator.value.id != attemptId then Err(UnknownAttempt)
    else if !r.status.Evaluating? || !Waiting(r.evaluator.value.state) then Err(NotWaiting)
    else
      var e := r.evaluator.value.(usage := if body.usage.Some? then body.usage else r.evaluator.value.usage);
      match body.scores
      case Some(scores) => Ok(r.(evaluator := Some(e.(state := Completed, scores := scores))))
      case None => Ok(r.(evaluator := Some(e.(state := Failed, error := Some(body.reason))), status := Broken))
  }

  ghost function FinishIn(r: Record): Record {
    if !r.status.Evaluating? || r.evaluator.None? || !r.evaluator.value.state.Completed? then r
    else if !Fits(r.brief.budget, Calls(r), false) then r.(status := Broken, selected := None)
    else match DecodeScores(r, r.evaluator.value.scores)
      case None => r.(status := Broken, selected := None)
      case Some(scores) => Conclude(r, scores, FullField(r) && |scores| == |r.candidates|)
  }

  function FailIn(r: Record): Record { r.(status := Broken) }

  function FinalizePartialIn(r: Record): Record { r.(status := Partial) }

  // ---------------------------------------------------------------- the stored record

  class CompetitionAggregate {
    var record: Record

    constructor (brief: Brief)
      ensures record == Record(brief, Collecting, [], [], [], None, None, None, 0.0)
    {
      record := Record(brief, Collecting, [], [], [], None, None, None, 0.0);
    }

    method SubmitCandidate(e: Envelope) returns (error: Option<Failure>)
      modifies this
      ensures var next := SubmitCandidateIn(old(record), e);
        if next.Ok? then error == None && record == next.value else error == Some(next.error) && record == old(record)
    {
      if !record.status.Collecting? { return Some(NotCollecting); }
      if record.brief.budget.Some? { return Some(MustBeManaged); }
      if e.agent !in record.brief.participants { return Some(NotAParticipant); }
      if !BoundTo(record.brief, e) { return Some(Unbound); }
      if HasCandidate(record.candidates, e.agent) { return Some(AlreadySubmitted); }
      PushCandidate(e);
      return None;
    }

    /** Adds a candidate unless its agent has one, and re-adds the total cost. */
    method PushCandidate(e: Envelope)
      modifies this
      ensures record == AddCandidate(old(record), e)
    {
      if HasCandidate(record.candidates, e.agent) { return; }
      var candidates := record.candidates + [e];
      var total := 0.0;
      for i := 0 to |candidates|
        invariant total == Cost(candidates[..i])
      {
        assert candidates[..i + 1][..i] == candidates[..i];
        total := total + if candidates[i].money.Some? then candidates[i].money.value else 0.0;
      }
      assert candidates[..|candidates|] == candidates;
      record := record.(candidates := candidates, totalCost := total);
    }

    method BeginEvaluation(agent: Id) returns (error: Option<Failure>)
      modifies this
      ensures var next := BeginEvaluationIn(old(record), agent);
        if next.Ok? then error == None && record == next.value else error == Some(next.error) && record == old(record)
    {
      if !record.status.Collecting? { return Some(NotCollecting); }
      if record.candidates == [] { return Some(NoCandidates); }
      if agent in record.brief.participants { return Some(NotIndependent); }
      record := record.(status := Evaluating, evaluatorAgent := Some(agent));
      return None;
    }

    method SubmitScore(agent: Id, score: Score) returns (error: Option<Failure>)
      modifies this
      ensures var next := SubmitScoreIn(old(record), agent, score);
        if next.Ok? then error == None && record == next.value else error == Some(next.error) && record == old(record)
    {
      if !record.status.Evaluating? || record.evaluatorAgent != Some(agent) { return Some(NotThisEvaluator); }
      var over := AssertCollaborationBudget(record.brief.budget, Calls(record), false);
      if over.Some? { return Some(OverBudget); }
      if record.brief.budget.Some? && !(record.evaluator.Some? && record.evaluator.value.state.Completed?) { return Some(EvaluatorUnsettled); }
      var actual := if record.brief.blind then Unalias(record.candidates, score.agent) else Some(score.agent);
      if actual.None? || !HasCandidate(record.candidates, actual.value) { return Some(UnknownCandidate); }
      if HasScore(record.scores, actual.value) { return Some(AlreadyScored); }
      var scores := record.scores + [score.(agent := actual.value)];
      if |scores| < |record.candidates| { record := record.(scores := scores); return None; }
      Apply(scores, FullField(record));
      return None;
    }

    /** Picks the first accepted score of maximal value. */
    method Select(scores: seq<Score>) returns (best: Option<Score>)
      ensures best == Best(scores)
    {
      best := None;
      for i := 0 to |scores|
        invariant best == Best(scores[..i])
      {
        assert scores[..i + 1][..i] == scores[..i];
        if scores[i].accepted && (best.None? || scores[i].score > best.value.score) { best := Some(scores[i]); }
      }
      assert scores[..|scores|] == scores;
    }

    method Apply(scores: seq<Score>, full: bool)
      modifies this
      ensures record == Conclude(old(record), scores, full)
    {
      var over := TooCostly(record);
      var complete := !over && full;
      if !over {
        var best := Select(scores);
        if best.Some? { record := record.(selected := Some(best.value.agent)); }
      }
      record := record.(scores := scores, status := if complete then Finished else Partial);
    }

    method Start()
      modifies this
      ensures record == StartIn(old(record))
    {
      if record.status.Collecting? || record.status.Running? { record := record.(status := Running); }
    }

    method Reserve(participant: Id, freshId: Id) returns (error: Option<Failure>, reserved: bool)
      modifies this
      ensures var next := ReserveIn(old(record), participant, freshId);
        if next.Ok? then error == None && record == next.value.0 && reserved == next.value.1
        else error == Some(next.error) && record == old(record) && !reserved
    {
      if !Open(record.status) || AnyWaiting(record.attempts) || HasAttempt(record.attempts, participant) { return None, false; }
      var over := AssertCollaborationBudget(record.brief.budget, Calls(record), true);
      if over.Some? { return Some(OverBudget), false; }
      record := record.(attempts := record.attempts + [Attempt(freshId, participant, Started, None, None, None)], status := Running);
      return None, true;
    }

    method Settle(attemptId: Id, e: Envelope)
      modifies this
      ensures record == SettleIn(old(record), attemptId, e)
    {
      var k := AttemptIndex(record.attempts, attemptId);
      if k == |record.attempts| || !record.attempts[k].state.Started? { return; }
      record := record.(attempts := record.attempts[k := record.attempts[k].(state := Completed, result := Some(e))]);
      var over := AssertCollaborationBudget(record.brief.budget, Calls(record), false);
      if over.Some? { record := record.(status := Broken); return; }
      PushCandidate(e);
    }

    method CallFailed(attemptId: Id, unknown: bool, error: string)
      modifies this
      ensures record == CallFailedIn(old(record), attemptId, unknown, error)
    {
      var k := AttemptIndex(record.attempts, attemptId);
      if k < |record.attempts| && record.attempts[k].state.Started? {
        var a := record.attempts[k].(state := if unknown then Unknown else Failed, error := Some(error));
        record := record.(attempts := record.attempts[k := a]);
      }
    }

    method RecordUsage(attemptId: Id, usage: CallUsage)
      modifies this
      ensures record == RecordUsageIn(old(record), attemptId, usage)
    {
      var k := AttemptIndex(record.attempts, attemptId);
      if k < |record.attempts| {
        if record.attempts[k].state.Started? && record.attempts[k].usage.None? {
          record := record.(attempts := record.attempts[k := record.attempts[k].(usage := Some(usage))]);
        }
        return;
      }
      if record.evaluator.Some? && record.evaluator.value.id == attemptId {
        var e := record.evaluator.value;
        if e.state.Started? && e.usage.None? { record := record.(evaluator := Some(e.(usage := Some(usage)))); }
      }
    }

    method Reconcile(attemptId: Id, body: Reconciliation) returns (error: Option<Failure>)
      modifies this
      ensures var next := ReconcileIn(old(record), attemptId, body);
        if next.Ok? then error == None && record == next.value else error == Some(next.error) && record == old(record)
    {
      var k := AttemptIndex(record.attempts, attemptId);
      if k == |record.attempts| { return Some(UnknownAttempt); }
      var a := record.attempts[k];
      if !Waiting(a.state) { return Some(NotWaiting); }
      if body.usage.Some? { a := a.(usage := body.usage); }
      if body.failed {
        record := record.(attempts := record.attempts[k := a.(state := Failed, error := Some(body.reason))]);
      } else {
        if body.result.None? || body.result.value.agent != a.participant || !BoundTo(record.brief, body.result.value) { return Some(Unbound); }
        record := record.(attempts := record.attempts[k := a.(state := Reconciled, result := body.result)]);
        var over := AssertCollaborationBudget(record.brief.budget, Calls(record), false);
        if over.Some? { record := record.(status := Broken); return None; }
        PushCandidate(body.result.value);
      }
      record := record.(status := if AnyWaiting(record.attempts) then Running else Collecting);
      return None;
    }

    method ReserveEvaluator(agent: Id, freshId: Id) returns (error: Option<Failure>, reserved: bool)
      modifies this
      ensures var next := ReserveEvaluatorIn(old(record), agent, freshId);
        if next.Ok? then error == None && record == next.value.0 && reserved == next.value.1
        else error == Some(next.error) && record == old(record) && !reserved
    {
      if !record.status.Running? || record.evaluator.Some? || AnyWaiting(record.attempts) { return None, false; }
      var over := AssertCollaborationBudget(record.brief.budget, Calls(record), true);
      if over.Some? { return Some(OverBudget), false; }
      record := record.(evaluator := Some(EvaluatorAttempt(freshId, Started, None, [], None)));
      record := record.(status := Evaluating, evaluatorAgent := Some(agent));
      return None, true;
    }

    method SettleEvaluator(attemptId: Id, scores: seq<Score>)
      modifies this
      ensures record == SettleEvaluatorIn(old(record), attemptId, scores)
    {
      if !EvaluatorStarted(record, attemptId) { return; }
      record := record.(evaluator := Some(record.evaluator.value.(state := Completed, scores := scores)));
    }

    method EvaluatorFailed(attemptId: Id, unknown: bool, error: string)
      modifies this
      ensures record == EvaluatorFailedIn(old(record), attemptId, unknown, error)
    {
      if !EvaluatorStarted(record, attemptId) { return; }
      record := record.(evaluator := Some(record.evaluator.value.(state := if unknown then Unknown else Failed, error := Some(error))));
      if !unknown { record := record.(status := Broken); }
    }

    method ReconcileEvaluator(attemptId: Id, body: EvaluatorReconciliation) returns (error: Option<Failure>)
      modifies this
      ensures var next := ReconcileEvaluatorIn(old(record), attemptId, body);
        if next.Ok? then error == None && record == next.value else error == Some(next.error) && record == old(record)
    {
      if body.scores.Some? && body.scores.value == [] { return Some(ScoresMissing); }
      if record.evaluator.None? || record.evaluator.value.id != attemptId { return Some(UnknownAttempt); }
      var e := record.evaluator.value;
      if !record.status.Evaluating? || !Waiting(e.state) { return Some(NotWaiting); }
      if body.usage.Some? { e := e.(usage := body.usage); }
      if body.scores.Some? {
        record := record.(evaluator := Some(e.(state := Completed, scores := body.scores.value)));
      } else {
        record := record.(evaluator := Some(e.(state := Failed, error := Some(body.reason))), status := Broken);
      }
      return None;
    }

    /** Applies the stored evaluator output; a second call finds the status moved on. */
    method FinishEvaluation()
      modifies this
      ensures record == FinishIn(old(record))
    {
      if !record.status.Evaluating? || record.evaluator.None? || !record.evaluator.value.state.Completed? { return; }
      var over := AssertCollaborationBudget(record.brief.budget, Calls(record), false);
      if over.Some? { record := record.(status := Broken, selected := None); return; }
      var raw, scores := record.evaluator.value.scores, [];
      for i := 0 to |raw|
        invariant record == old(record) && DecodeScores(record, raw[..i]) == Some(scores)
      {
        assert raw[..i + 1][..i] == raw[..i];
        var agent := Decode(record, raw[i].agent);
        if !HasCandidate(record.candidates, agent) || HasScore(scores, agent) {
          UndecodablePrefix(record, raw, i + 1);
          record := record.(status := Broken, selected := None);
          return;
        }
        scores := scores + [raw[i].(agent := agent)];
      }
      assert raw[..|raw|] == raw;
      Apply(scores, FullField(record) && |scores| == |record.candidates|);
    }
  }

  lemma {:induction false} UndecodablePrefix(r: Record, raw: seq<Score>, n: nat)
    requires n <= |raw| && DecodeScores(r, raw[..n]).None?
    ensures DecodeScores(r, raw).None?
    decreases |raw| - n
  {
    if n < |raw| {
      assert raw[..n + 1][..n] == raw[..n];
      UndecodablePrefix(r, raw, n + 1);
    } else {
      assert raw[..n] == raw;
    }
  }
}
