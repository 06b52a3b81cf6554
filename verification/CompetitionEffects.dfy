/** What becomes of the replies of a competition: every accepted result is a candidate unless it
    took the record over its budget, and what each attempt stores is what was reported about it. */
module CompetitionEffects {
  import opened Basics
  import opened Budget
  import opened Competition
  import opened CompetitionRuns

  // ---------------------------------------------------------------- one accepted result

  function MoneyIn(e: Envelope): real { match e.money case Some(m) => m case None => 0.0 }

  ghost predicate FirstWithId(attempts: seq<Attempt>, k: nat, id: Id) {
    k < |attempts| && attempts[k].id == id && forall j :: 0 <= j < k ==> attempts[j].id != id
  }

  /** The k-th attempt became `a`. When the calls fit the budget its result is a candidate, the last
      one unless its agent had one before, the total cost grew by its price and the status is `open`.
      Otherwise the record failed. */
  ghost predicate TakesResult(r: Record, next: Record, k: nat, a: Attempt, e: Envelope, open: Status)
    requires k < |r.attempts|
  {
    var calls := seq(|r.attempts|, i requires 0 <= i < |r.attempts| => if i == k then a.usage else r.attempts[i].usage);
    var all := calls + (if r.evaluator.Some? then [r.evaluator.value.usage] else []);
    && next.attempts == r.attempts[k := a] && next.brief == r.brief && next.scores == r.scores && next.selected == r.selected
    && next.evaluator == r.evaluator && next.evaluatorAgent == r.evaluatorAgent
    && next.status == (if Fits(r.brief.budget, all, false) then open else Broken)
    && if Fits(r.brief.budget, all, false)
       then if exists i :: 0 <= i < |r.candidates| && r.candidates[i].agent == e.agent
            then next.candidates == r.candidates && next.totalCost == r.totalCost
            else next.candidates == r.candidates + [e] && next.totalCost == r.totalCost + MoneyIn(e)
       else next.candidates == r.candidates && next.totalCost == r.totalCost
  }

  lemma CostGrows(candidates: seq<Envelope>, e: Envelope)
    ensures Cost(candidates + [e]) == Cost(candidates) + MoneyIn(e)
  {
    assert (candidates + [e])[..|candidates|] == candidates;
  }

  lemma CallsOf(r: Record, k: nat, a: Attempt)
    requires k < |r.attempts|
    ensures Calls(r.(attempts := r.attempts[k := a]))
         == seq(|r.attempts|, i requires 0 <= i < |r.attempts| => if i == k then a.usage else r.attempts[i].usage)
            + (if r.evaluator.Some? then [r.evaluator.value.usage] else [])
  {}

  /** The reply of a started attempt completes it and is taken; any other reply changes nothing. */
  lemma SettlementTakesTheResult(r: Record, attemptId: Id, e: Envelope, k: nat)
    requires r.totalCost == Cost(r.candidates)
    ensures FirstWithId(r.attempts, k, attemptId) && r.attempts[k].state.Started? ==>
      TakesResult(r, SettleIn(r, attemptId, e), k, r.attempts[k].(state := Completed, result := Some(e)), e, r.status)
    ensures (forall j: nat :: FirstWithId(r.attempts, j, attemptId) ==> !r.attempts[j].state.Started?) ==> SettleIn(r, attemptId, e) == r
  {
    var i := AttemptIndex(r.attempts, attemptId);
    if i < |r.attempts| {
      assert FirstWithId(r.attempts, i, attemptId);
      CallsOf(r, i, r.attempts[i].(state := Completed, result := Some(e)));
    }
    CostGrows(r.candidates, e);
  }

  /** Running while an attempt still waits, else collecting again. */
  ghost function OpenAgain(attempts: seq<Attempt>): Status {
    if exists i :: 0 <= i < |attempts| && (attempts[i].state.Started? || attempts[i].state.Unknown?) then Running else Collecting
  }

  /** An attempt that waits takes the reported usage and fails, or takes the bound result; an unbound
      one, one that does not wait and one that does not exist are refused. */
  lemma ReconciliationTakesTheResult(r: Record, attemptId: Id, body: Reconciliation, k: nat)
    requires r.totalCost == Cost(r.candidates)
    ensures var answer := ReconcileIn(r, attemptId, body);
      && ((forall j: nat :: !FirstWithId(r.attempts, j, attemptId)) ==> answer == Err(UnknownAttempt))
      && (FirstWithId(r.attempts, k, attemptId) ==> var before := r.attempts[k];
            if !before.state.Started? && !before.state.Unknown? then answer == Err(NotWaiting)
            else
              var a := before.(usage := match body.usage case Some(_) => body.usage case None => before.usage);
              if body.failed then
                var after := r.attempts[k := a.(state := Failed, error := Some(body.reason))];
                answer == Ok(r.(attempts := after, status := OpenAgain(after)))
              else match body.result
                case None => answer == Err(Unbound)
                case Some(e) =>
                  if e.agent != a.participant || e.taskId != r.brief.taskId || e.contextVersion != r.brief.contextVersion
                    || e.resultType != r.brief.resultType then answer == Err(Unbound)
                  else
                    var taken := a.(state := Reconciled, result := Some(e));
                    answer.Ok? && TakesResult(r, answer.value, k, taken, e, OpenAgain(r.attempts[k := taken])))
  {
    var i := AttemptIndex(r.attempts, attemptId);
    if i < |r.attempts| {
      assert FirstWithId(r.attempts, i, attemptId);
      var a := r.attempts[i].(usage := if body.usage.Some? then body.usage else r.attempts[i].usage, state := Reconciled, result := body.result);
      CallsOf(r, i, a);
    }
    if body.result.Some? { CostGrows(r.candidates, body.result.value); }
  }

  // ---------------------------------------------------------------- every accepted result is a candidate

  /** The calls took the record over its budget and nothing can be called or reconciled any more. */
  ghost predicate Overrun(r: Record) {
    && !Fits(r.brief.budget, Calls(r), false)
    && !AnyWaiting(r.attempts) && r.evaluator.None? && (r.status.Broken? || r.status.Partial?)
  }

  predicate Accepted(a: Attempt) { a.state.Completed? || a.state.Reconciled? }

  /** An accepted attempt has its participant's bound result. */
  ghost predicate Answers(r: Record, a: Attempt) {
    Accepted(a) ==> a.result.Some? && a.result.value.agent == a.participant && BoundTo(r.brief, a.result.value)
  }

  /** Accepted attempts have a candidate of their participant, unless the calls overran the budget. */
  ghost predicate Answered(r: Record) {
    && (forall i :: 0 <= i < |r.attempts| ==> Answers(r, r.attempts[i]))
    && (Overrun(r) || forall i :: 0 <= i < |r.attempts| && Accepted(r.attempts[i]) ==> HasCandidate(r.candidates, r.attempts[i].participant))
  }

  /** A caller awaiting a reply has an attempt of its participant. */
  ghost predicate Bound(r: Record, c: Caller) {
    c.Calling? ==>
      && c.i < |r.brief.participants|
      && exists j :: 0 <= j < |r.attempts| && r.attempts[j].id == c.attemptId && r.attempts[j].participant == r.brief.participants[c.i]
  }

  /** Attempts keep their ids and participants, and accepted ones were accepted before. */
  ghost predicate Untouched(r: Record, next: Record) {
    && next.brief == r.brief && r.candidates <= next.candidates && |r.attempts| <= |next.attempts|
    && (forall i :: 0 <= i < |r.attempts| ==> next.attempts[i].id == r.attempts[i].id && next.attempts[i].participant == r.attempts[i].participant)
    && (forall i :: 0 <= i < |next.attempts| && Accepted(next.attempts[i]) ==> i < |r.attempts| && next.attempts[i] == r.attempts[i])
    && (Overrun(r) ==> Overrun(next))
  }

  lemma UntouchedKeepsAnswered(r: Record, next: Record)
    requires Answered(r) && Untouched(r, next)
    ensures Answered(next)
  {
    forall i | 0 <= i < |next.attempts| && Accepted(next.attempts[i]) && !Overrun(next)
      ensures HasCandidate(next.candidates, next.attempts[i].participant)
    {
      var j :| 0 <= j < |r.candidates| && r.candidates[j].agent == r.attempts[i].participant;
      assert next.candidates[j] == r.candidates[j];
    }
  }

  lemma TakingKeepsAnswered(r: Record, next: Record, k: nat, a: Attempt, e: Envelope, open: Status)
    requires Inv(r) && Answered(r) && k < |r.attempts| && Waiting(r.attempts[k].state) && TakesResult(r, next, k, a, e, open)
    requires Accepted(a) && a.result == Some(e) && a.participant == r.attempts[k].participant == e.agent && BoundTo(r.brief, e)
    ensures Answered(next)
  {
    assert AnyWaiting(r.attempts);
    RewritingAttempt(r, k, a);
    CallsOf(r, k, a);
    assert Calls(next) == Calls(r.(attempts := r.attempts[k := a]));
    assert forall i :: 0 <= i < |next.attempts| && i != k ==> next.attempts[i] == r.attempts[i];
    if !Overrun(next) {
      forall i | 0 <= i < |next.attempts| && Accepted(next.attempts[i]) ensures HasCandidate(next.candidates, next.attempts[i].participant) {
        if i == k {
          if !HasCandidate(r.candidates, e.agent) { assert next.candidates[|r.candidates|].agent == e.agent; }
        } else {
          var j :| 0 <= j < |r.candidates| && r.candidates[j].agent == r.attempts[i].participant;
          assert next.candidates[j] == r.candidates[j];
        }
      }
    }
  }

  /** Nothing about the attempts a caller waits for is lost. */
  ghost predicate KeepsIds(r: Record, next: Record) {
    && next.brief == r.brief && |r.attempts| <= |next.attempts|
    && forall i :: 0 <= i < |r.attempts| ==> next.attempts[i].id == r.attempts[i].id && next.attempts[i].participant == r.attempts[i].participant
  }

  lemma KeepsBound(r: Record, next: Record, c: Caller)
    requires KeepsIds(r, next) && Bound(r, c)
    ensures Bound(next, c)
  {
    if c.Calling? {
      var j :| 0 <= j < |r.attempts| && r.attempts[j].id == c.attemptId && r.attempts[j].participant == r.brief.participants[c.i];
      assert next.attempts[j].id == c.attemptId;
    }
  }

  lemma ReconcileAnswered(r: Record, attemptId: Id, body: Reconciliation)
    requires Inv(r) && Answered(r) && ReconcileIn(r, attemptId, body).Ok?
    ensures Answered(ReconcileIn(r, attemptId, body).value) && KeepsIds(r, ReconcileIn(r, attemptId, body).value)
  {
    var k := AttemptIndex(r.attempts, attemptId);
    var next := ReconcileIn(r, attemptId, body).value;
    assert FirstWithId(r.attempts, k, attemptId);
    ReconciliationTakesTheResult(r, attemptId, body, k);
    if body.failed {
      assert !Overrun(r);
      UntouchedKeepsAnswered(r, next);
    } else {
      TakingKeepsAnswered(r, next, k, next.attempts[k], body.result.value, OpenAgain(next.attempts));
    }
  }

  lemma ScoreIsUntouched(r: Record, agent: Id, score: Score)
    requires SubmitScoreIn(r, agent, score).Ok?
    ensures Untouched(r, SubmitScoreIn(r, agent, score).value)
  {}

  lemma ServiceIsUntouched(r: Record, e: Event)
    requires !e.Reconcile?
    ensures Untouched(r, ServiceNext(r, e))
  {
    match e
    case SubmitScore(agent, score) => if SubmitScoreIn(r, agent, score).Ok? { ScoreIsUntouched(r, agent, score); }
    case _ =>
  }

  lemma ServiceAnswered(r: Record, e: Event)
    requires Inv(r) && Answered(r)
    ensures Answered(ServiceNext(r, e)) && KeepsIds(r, ServiceNext(r, e))
  {
    if e.Reconcile? {
      if ReconcileIn(r, e.attemptId, e.body).Ok? { ReconcileAnswered(r, e.attemptId, e.body); }
    } else {
      ServiceIsUntouched(r, e);
      UntouchedKeepsAnswered(r, ServiceNext(r, e));
    }
  }

  lemma SettleAnswered(r: Record, agent: Id, i: nat, attemptId: Id, e: Envelope)
    requires Inv(r) && Answered(r) && Bound(r, Calling(agent, i, attemptId)) && Usable(r, r.brief.participants[i], Candidate(e))
    ensures Answered(SettleIn(r, attemptId, e)) && KeepsIds(r, SettleIn(r, attemptId, e))
  {
    var k := AttemptIndex(r.attempts, attemptId);
    if k < |r.attempts| && r.attempts[k].state.Started? {
      var j :| 0 <= j < |r.attempts| && r.attempts[j].id == attemptId && r.attempts[j].participant == r.brief.participants[i];
      assert j == k;
      assert FirstWithId(r.attempts, k, attemptId);
      SettlementTakesTheResult(r, attemptId, e, k);
      TakingKeepsAnswered(r, SettleIn(r, attemptId, e), k, r.attempts[k].(state := Completed, result := Some(e)), e, r.status);
    }
  }

  lemma ReserveAnswered(r: Record, i: nat, freshId: Id, agent: Id)
    requires Answered(r) && i < |r.brief.participants| && ReserveIn(r, r.brief.participants[i], freshId).Ok?
    ensures var next := ReserveIn(r, r.brief.participants[i], freshId).value;
      Answered(next.0) && KeepsIds(r, next.0) && (next.1 ==> Bound(next.0, Calling(agent, i, freshId)))
  {
    var next := ReserveIn(r, r.brief.participants[i], freshId).value;
    UntouchedKeepsAnswered(r, next.0);
    if next.1 { assert next.0.attempts[|r.attempts|].id == freshId; }
  }

  lemma CallerAnswered(w: World, c: Caller, freshId: Id, reply: Reply)
    requires Inv(w.record) && Answered(w.record) && Bound(w.record, c)
    ensures var step := AdvanceCaller(w, c, freshId, reply);
      Answered(step.0.record) && KeepsIds(w.record, step.0.record) && Bound(step.0.record, step.1)
  {
    var r, next := w.record, AdvanceCaller(w, c, freshId, reply).0.record;
    if c.Reserving? {
      if c.i < |r.brief.participants| && ReserveIn(r, r.brief.participants[c.i], freshId).Ok? { ReserveAnswered(r, c.i, freshId, c.agent); }
    } else if c.Calling? && Usable(r, r.brief.participants[c.i], reply) {
      SettleAnswered(r, c.agent, c.i, c.attemptId, reply.e);
    } else {
      OtherCallersLeaveUntouched(w, c, freshId, reply);
      UntouchedKeepsAnswered(r, next);
    }
  }

  lemma OtherCallersLeaveUntouched(w: World, c: Caller, freshId: Id, reply: Reply)
    requires !c.Reserving? && (c.Calling? ==> c.i < |w.record.brief.participants| && !Usable(w.record, w.record.brief.participants[c.i], reply))
    ensures Untouched(w.record, AdvanceCaller(w, c, freshId, reply).0.record)
  {}

  ghost predicate AnsweredWorld(w: World) {
    Answered(w.record) && forall c :: c in w.callers ==> Bound(w.record, w.callers[c])
  }

  lemma StepKeepsAnswered(w: World, e: Event)
    requires WorldInv(w) && AnsweredWorld(w)
    ensures AnsweredWorld(Next(w, e))
  {
    var next := Next(w, e);
    match e
    case Spawn(_, _) =>
    case Crash(_) =>
    case Advance(c, freshId, reply) =>
      if c in w.callers {
        CallerAnswered(w, w.callers[c], freshId, reply);
        forall d | d in next.callers ensures Bound(next.record, next.callers[d]) {
          if d != c { KeepsBound(w.record, next.record, w.callers[d]); }
        }
      }
    case _ =>
      ServiceAnswered(w.record, e);
      forall d | d in next.callers ensures Bound(next.record, next.callers[d]) { KeepsBound(w.record, next.record, w.callers[d]); }
  }

  lemma {:induction false} EveryRunKeepsAnswered(w: World, events: seq<Event>)
    requires WorldInv(w) && AnsweredWorld(w)
    ensures AnsweredWorld(Run(w, events))
  {
    if events != [] {
      EveryRunKeepsWorldInv(w, events[..|events| - 1]);
      EveryRunKeepsAnswered(w, events[..|events| - 1]);
      StepKeepsAnswered(Run(w, events[..|events| - 1]), events[|events| - 1]);
    }
  }

  /** In every reachable record an attempt that completed or was reconciled with a result carries the
      bound result of its participant, and there is a candidate of that participant; unless the calls
      exceed the budget, and then nothing can be called or reconciled any more. */
  lemma EveryAcceptedResultIsACandidate(w: World, events: seq<Event>, i: nat)
    requires NewWorld(w)
    ensures var r := Run(w, events).record;
      i < |r.attempts| && (r.attempts[i].state.Completed? || r.attempts[i].state.Reconciled?) ==>
        && r.attempts[i].result.Some? && r.attempts[i].result.value.agent == r.attempts[i].participant
        && ((exists j :: 0 <= j < |r.candidates| && r.candidates[j].agent == r.attempts[i].participant)
            || (!Fits(r.brief.budget, Calls(r), false) && (r.status.Broken? || r.status.Partial?) && r.evaluator.None?
                && forall j :: 0 <= j < |r.attempts| ==> !r.attempts[j].state.Started? && !r.attempts[j].state.Unknown?))
  {
    NewIsInv(w.record);
    EveryRunKeepsAnswered(w, events);
    var r := Run(w, events).record;
    if i < |r.attempts| && Accepted(r.attempts[i]) { assert Answers(r, r.attempts[i]); }
  }

  // ---------------------------------------------------------------- the life of one attempt

  predicate BoundReply(brief: Brief, participant: Id, e: Envelope) {
    e.agent == participant && e.taskId == brief.taskId && e.contextVersion == brief.contextVersion && e.resultType == brief.resultType
  }

  function Reported(usage: Option<CallUsage>, before: Option<CallUsage>): Option<CallUsage> {
    match usage case Some(_) => usage case None => before
  }

  /** What a caller's reply makes of the attempt it waits for. */
  function AfterReply(brief: Brief, a: Attempt, participant: Id, reply: Reply): Attempt {
    match reply
    case Candidate(e) =>
      if BoundReply(brief, participant, e) then a.(state := Completed, result := Some(e)) else a.(state := Failed, error := Some("failed"))
    case CallError(unknown, _) => a.(state := if unknown then Unknown else Failed, error := Some("failed"))
    case Scores(_) => a.(state := Failed, error := Some("failed"))
  }

  /** An attempt seen on its own: started, it takes one reply and one report of its usage; started or
      unknown, it can be reconciled; after that nothing changes it. */
  function AttemptAfter(w: World, e: Event, a: Attempt): Attempt {
    var brief := w.record.brief;
    match e
    case Advance(c, _, reply) =>
      if && a.state.Started? && c in w.callers && w.callers[c].Calling? && w.callers[c].attemptId == a.id
         && w.callers[c].i < |brief.participants|
      then AfterReply(brief, a, brief.participants[w.callers[c].i], reply) else a
    case ReportUsage(id, usage) => if id == a.id && a.state.Started? && a.usage.None? then a.(usage := Some(usage)) else a
    case Reconcile(id, body) =>
      if id != a.id || (!a.state.Started? && !a.state.Unknown?) then a
      else if body.failed then a.(usage := Reported(body.usage, a.usage), state := Failed, error := Some(body.reason))
      else if body.result.Some? && BoundReply(brief, a.participant, body.result.value) then
        a.(usage := Reported(body.usage, a.usage), state := Reconciled, result := body.result)
      else a
    case _ => a
  }

  /** Attempt ids are random and do not repeat, so each attempt is the first of its id. */
  ghost predicate Findable(attempts: seq<Attempt>, k: nat) { k < |attempts| && FirstWithId(attempts, k, attempts[k].id) }

  lemma ServiceMovesAttempt(w: World, e: Event, k: nat)
    requires !e.Spawn? && !e.Advance? && !e.Crash? && Findable(w.record.attempts, k)
    ensures |ServiceNext(w.record, e).attempts| == |w.record.attempts|
    ensures ServiceNext(w.record, e).attempts[k] == AttemptAfter(w, e, w.record.attempts[k])
  {
    match e
    case SubmitScore(agent, score) =>
    case ReportUsage(id, _) => SameIndex(w.record.attempts, k, id);
    case Reconcile(id, _) => SameIndex(w.record.attempts, k, id);
    case _ =>
  }

  lemma SameIndex(attempts: seq<Attempt>, k: nat, id: Id)
    requires Findable(attempts, k)
    ensures AttemptIndex(attempts, id) == k <==> attempts[k].id == id
  {}

  lemma CallerMovesAttempt(w: World, c: nat, freshId: Id, reply: Reply, k: nat)
    requires c in w.callers && Findable(w.record.attempts, k)
    ensures var next := AdvanceCaller(w, w.callers[c], freshId, reply).0.record;
      k < |next.attempts| && next.attempts[k] == AttemptAfter(w, Advance(c, freshId, reply), w.record.attempts[k])
  {
    match w.callers[c]
    case Calling(_, _, attemptId) => SameIndex(w.record.attempts, k, attemptId);
    case _ =>
  }

  /** In every step of the whole competition each attempt does what it would do on its own. */
  lemma EveryAttemptGoesItsWay(w: World, e: Event, k: nat)
    requires Findable(w.record.attempts, k)
    ensures k < |Next(w, e).record.attempts| && Next(w, e).record.attempts[k] == AttemptAfter(w, e, w.record.attempts[k])
  {
    match e
    case Spawn(_, _) =>
    case Crash(_) =>
    case Advance(c, freshId, reply) => if c in w.callers { CallerMovesAttempt(w, c, freshId, reply, k); }
    case _ => ServiceMovesAttempt(w, e, k);
  }

  /** An attempt is added exactly when a caller about to run a participant finds the record open, none
      waiting, none of that participant and room in the budget; it starts with nothing reported. */
  lemma AttemptsStartExactly(w: World, c: nat, freshId: Id, reply: Reply)
    requires c in w.callers
    ensures var r, next, caller := w.record, AdvanceCaller(w, w.callers[c], freshId, reply), w.callers[c];
      if && caller.Reserving? && caller.i < |r.brief.participants| && (r.status.Collecting? || r.status.Running?)
         && (forall i :: 0 <= i < |r.attempts| ==>
               !r.attempts[i].state.Started? && !r.attempts[i].state.Unknown? && r.attempts[i].participant != r.brief.participants[caller.i])
         && Fits(r.brief.budget, Calls(r), true)
      then && next.0.record.attempts == r.attempts + [Attempt(freshId, r.brief.participants[caller.i], Started, None, None, None)]
           && next.0.record.status.Running? && next.0.ran == w.ran + [r.brief.participants[caller.i]] && next.1 == Calling(caller.agent, caller.i, freshId)
      else |next.0.record.attempts| == |r.attempts| && next.0.ran == w.ran
  {
    match w.callers[c]
    case Reserving(_, _) =>
    case _ =>
  }

  // ---------------------------------------------------------------- the life of the evaluator's attempt

  function EvaluatorAfterReply(a: EvaluatorAttempt, reply: Reply): EvaluatorAttempt {
    match reply
    case Scores(scores) => a.(state := Completed, scores := scores)
    case CallError(unknown, _) => a.(state := if unknown then Unknown else Failed, error := Some("failed"))
    case Candidate(_) => a.(state := Failed, error := Some("failed"))
  }

  /** The evaluator's attempt on its own: one reply, one report, and a reconciliation while it waits and
      the record is being evaluated. */
  function EvaluatorAfter(w: World, e: Event, a: EvaluatorAttempt): EvaluatorAttempt {
    match e
    case Advance(c, _, reply) =>
      if a.state.Started? && c in w.callers && w.callers[c].CallingEvaluator? && w.callers[c].attemptId == a.id
      then EvaluatorAfterReply(a, reply) else a
    case ReportUsage(id, usage) =>
      if id == a.id && a.state.Started? && a.usage.None? && !HasId(w.record.attempts, id) then a.(usage := Some(usage)) else a
    case ReconcileEvaluator(id, verdict) =>
      if id != a.id || (!a.state.Started? && !a.state.Unknown?) || !w.record.status.Evaluating? || verdict.scores == Some([]) then a
      else if verdict.scores.Some? then a.(usage := Reported(verdict.usage, a.usage), state := Completed, scores := verdict.scores.value)
      else a.(usage := Reported(verdict.usage, a.usage), state := Failed, error := Some(verdict.reason))
    case _ => a
  }

  predicate HasId(attempts: seq<Attempt>, id: Id) { exists i :: 0 <= i < |attempts| && attempts[i].id == id }

  lemma ServiceMovesEvaluator(w: World, e: Event)
    requires !e.Spawn? && !e.Advance? && !e.Crash? && w.record.evaluator.Some?
    ensures ServiceNext(w.record, e).evaluator == Some(EvaluatorAfter(w, e, w.record.evaluator.value))
  {
    match e
    case SubmitScore(agent, score) =>
    case ReportUsage(id, _) =>
      var i := AttemptIndex(w.record.attempts, id);
      assert i < |w.record.attempts| ==> HasId(w.record.attempts, id);
    case _ =>
  }

  lemma CallerMovesEvaluator(w: World, c: nat, freshId: Id, reply: Reply)
    requires c in w.callers && w.record.evaluator.Some?
    ensures AdvanceCaller(w, w.callers[c], freshId, reply).0.record.evaluator
         == Some(EvaluatorAfter(w, Advance(c, freshId, reply), w.record.evaluator.value))
  {
    match w.callers[c]
    case CallingEvaluator(_, _, _) =>
    case _ =>
  }

  /** In every step the evaluator's attempt does what it would do on its own. */
  lemma EvaluatorGoesItsWay(w: World, e: Event)
    requires w.record.evaluator.Some?
    ensures Next(w, e).record.evaluator == Some(EvaluatorAfter(w, e, w.record.evaluator.value))
  {
    match e
    case Spawn(_, _) =>
    case Crash(_) =>
    case Advance(c, freshId, reply) => if c in w.callers { CallerMovesEvaluator(w, c, freshId, reply); }
    case _ => ServiceMovesEvaluator(w, e);
  }

  /** The evaluator's attempt starts exactly when a caller about to evaluate finds the record running,
      no attempt waiting, no evaluator and room in the budget. */
  lemma EvaluatorStartsExactly(w: World, c: nat, freshId: Id, reply: Reply)
    requires c in w.callers && w.record.evaluator.None?
    ensures var r, next, caller := w.record, AdvanceCaller(w, w.callers[c], freshId, reply), w.callers[c];
      if && caller.ReservingEvaluator? && r.status.Running?
         && (forall i :: 0 <= i < |r.attempts| ==> !r.attempts[i].state.Started? && !r.attempts[i].state.Unknown?)
         && Fits(r.brief.budget, Calls(r), true)
      then && next.0.record == r.(evaluator := Some(EvaluatorAttempt(freshId, Started, None, [], None)), status := Evaluating, evaluatorAgent := Some(caller.agent))
           && next.0.judged == w.judged + [caller.seen] && next.1 == CallingEvaluator(caller.agent, freshId, caller.seen)
      else next.0.record.evaluator.None? && next.0.judged == w.judged
  {
    match w.callers[c]
    case ReservingEvaluator(_, _) =>
    case _ =>
  }

  // ---------------------------------------------------------------- direct submissions

  /** A candidate from outside is taken exactly when no budget asks for a call, the record collects and
      the candidate is a participant's first and bound. */
  lemma SubmissionTakenExactly(r: Record, e: Envelope)
    requires r.totalCost == Cost(r.candidates)
    ensures var answer := SubmitCandidateIn(r, e);
      if && r.status.Collecting? && r.brief.budget.None? && e.agent in r.brief.participants && BoundReply(r.brief, e.agent, e)
         && forall i :: 0 <= i < |r.candidates| ==> r.candidates[i].agent != e.agent
      then answer == Ok(r.(candidates := r.candidates + [e], totalCost := r.totalCost + MoneyIn(e)))
      else answer.Err?
  {
    CostGrows(r.candidates, e);
  }

  /** An evaluator outside the field begins exactly while the record collects and has a candidate. */
  lemma EvaluationBeginsExactly(r: Record, agent: Id)
    ensures var answer := BeginEvaluationIn(r, agent);
      if r.status.Collecting? && r.candidates != [] && agent !in r.brief.participants
      then answer == Ok(r.(status := Evaluating, evaluatorAgent := Some(agent))) else answer.Err?
  {}
}
