/** The durable debate record of src/collaboration-service.ts: attempts are reserved before
    they are dispatched, accounted, settled or reconciled, and the room is closed by a
    re-validated adjudication. Every method is one `mutateDebate` callback; a callback that
    throws stores nothing. */
module DebateService {
  import opened Basics
  import opened Budget
  import opened Debate
  import opened DebateRuns

  datatype AttemptState = Started | Completed | Unknown | Failed

  datatype Attempt = Attempt(
    id: Id, slot: string, agent: Id, state: AttemptState, usage: Option<CallUsage>, model: Option<string>,
    output: Option<string>, error: Option<string>, reconciliation: Option<string>)

  predicate Outstanding(a: Attempt) { a.state.Started? || a.state.Unknown? }

  datatype Roles = Roles(moderator: Option<Id>, adjudicator: Option<Id>)

  datatype Record = Record(
    room: Room, active: bool, budget: Option<Limits>, roles: Option<Roles>, attempts: seq<Attempt>)

  datatype Failure =
    | DebateClosed | OverBudget | BadInput | Unmanaged | NotCompleted | WrongMessage | Refused(reason: AppendError)
    | RolesNotIndependent | RolesPinned | AnotherAgent | UnknownAttempt | NotWaiting | OutputMissing
    | NotTheModerator | UnknownMessage | Unsupported | Unsettled | NotTheAdjudicator | ReviewMissing | HeldPublishes

  type Outcome = Result<Record, Failure>

  function UsageOf(attempts: seq<Attempt>): Reports {
    seq(|attempts|, i requires 0 <= i < |attempts| => attempts[i].usage)
  }

  predicate AnyOutstanding(attempts: seq<Attempt>) { exists i :: 0 <= i < |attempts| && Outstanding(attempts[i]) }

  predicate AllCompleted(attempts: seq<Attempt>) { forall i :: 0 <= i < |attempts| ==> attempts[i].state.Completed? }

  function AttemptIndex(attempts: seq<Attempt>, id: Id): (k: nat)
    ensures k <= |attempts|
    ensures k < |attempts| ==> attempts[k].id == id
    ensures forall j :: 0 <= j < k ==> attempts[j].id != id
  {
    if attempts == [] then 0
    else
      var k := AttemptIndex(attempts[..|attempts| - 1], id);
      if k < |attempts| - 1 || attempts[|attempts| - 1].id == id then k else |attempts|
  }

  function SlotIndex(attempts: seq<Attempt>, slot: string): (k: nat)
    ensures k <= |attempts|
    ensures k < |attempts| ==> attempts[k].slot == slot
    ensures forall j :: 0 <= j < k ==> attempts[j].slot != slot
  {
    if attempts == [] then 0
    else
      var k := SlotIndex(attempts[..|attempts| - 1], slot);
      if k < |attempts| - 1 || attempts[|attempts| - 1].slot == slot then k else |attempts|
  }

  // ---------------------------------------------------------------- what each callback stores

  predicate FromChannel(m: Message) { m.origin == Some("feishu") || m.origin == Some("hermes") }

  predicate ParticipantSlot(slot: string) { "participant:" <= slot }

  function AttemptSuffix(id: Id): string { if |id| >= 8 then id[8..] else "" }

  /** Why a message may not be bound to the attempt it names. */
  function AttemptFault(r: Record, m: Message, attemptId: Id): Option<Failure> {
    var k := AttemptIndex(r.attempts, attemptId);
    if k == |r.attempts| || !r.attempts[k].state.Completed? || !ParticipantSlot(r.attempts[k].slot) then Some(NotCompleted)
    else if m.speaker != r.attempts[k].agent || m.messageId != "message_" + AttemptSuffix(attemptId) then Some(WrongMessage)
    else None
  }

  ghost function AppendTo(r: Record, m: Message, attemptId: Option<Id>, now: Time): Outcome {
    if !r.active then Err(DebateClosed)
    else if !Fits(r.budget, UsageOf(r.attempts), false) then Err(OverBudget)
    else if !WellFormed(m) then Err(BadInput)
    else if FromChannel(m) && HasMessage(r.room.messages, m.messageId) then Ok(r)
    else if (r.roles.Some? || r.budget.Some?) && attemptId.None? then Err(Unmanaged)
    else if attemptId.Some? && AttemptFault(r, m, attemptId.value).Some? then Err(AttemptFault(r, m, attemptId.value).value)
    else match AppendMessage(r.room, m, now)
      case Ok(room) => Ok(r.(room := room))
      case Err(e) => Err(Refused(e))
  }

  predicate Independent(roles: Roles, participants: seq<Id>) {
    && (roles.moderator.Some? && roles.adjudicator.Some? ==> roles.moderator != roles.adjudicator)
    && (roles.moderator.Some? ==> roles.moderator.value !in participants)
    && (roles.adjudicator.Some? ==> roles.adjudicator.value !in participants)
  }

  /** Note that the status is not consulted. */
  ghost function BindTo(r: Record, roles: Roles): Outcome {
    if !Independent(roles, r.room.participants) then Err(RolesNotIndependent)
    else if r.roles.Some? && r.roles.value != roles then Err(RolesPinned)
    else Ok(r.(roles := Some(roles)))
  }

  /** The stored record and whether this caller won the slot and must dispatch the call. */
  ghost function ReserveIn(r: Record, slot: string, agent: Id, freshId: Id): Result<(Record, bool), Failure> {
    var k := SlotIndex(r.attempts, slot);
    if k < |r.attempts| then (if r.attempts[k].agent != agent then Err(AnotherAgent) else Ok((r, false)))
    else if !r.active || AnyOutstanding(r.attempts) then Ok((r, false))
    else if !Fits(r.budget, UsageOf(r.attempts), true) then Err(OverBudget)
    else Ok((r.(attempts := r.attempts + [Attempt(freshId, slot, agent, Started, None, None, None, None, None)]), true))
  }

  function UpdateAttempt(r: Record, k: nat, a: Attempt): Record
    requires k < |r.attempts|
  {
    r.(attempts := r.attempts[k := a])
  }

  function RecordUsageIn(r: Record, attemptId: Id, usage: CallUsage): Record {
    var k := AttemptIndex(r.attempts, attemptId);
    if k == |r.attempts| || !r.attempts[k].state.Started? || r.attempts[k].usage.Some? then r
    else UpdateAttempt(r, k, r.attempts[k].(usage := Some(usage)))
  }

  function RecordModelIn(r: Record, attemptId: Id, model: string): Record {
    var k := AttemptIndex(r.attempts, attemptId);
    if k == |r.attempts| || !r.attempts[k].state.Started? || r.attempts[k].model.Some? then r
    else UpdateAttempt(r, k, r.attempts[k].(model := Some(model)))
  }

  datatype Reply = Output(value: string) | CallFailed(error: string, unknown: bool)

  /** Reconciliation wins over a late reply, including a late failure. */
  function SettleIn(r: Record, attemptId: Id, reply: Reply): Record {
    var k := AttemptIndex(r.attempts, attemptId);
    if k == |r.attempts| || !r.attempts[k].state.Started? then r
    else
      match reply
      case Output(v) => UpdateAttempt(r, k, r.attempts[k].(output := Some(v), state := Completed))
      case CallFailed(e, unknown) =>
        UpdateAttempt(r, k, r.attempts[k].(error := Some(e), state := if unknown then Unknown else Failed))
  }

  datatype Reconciliation = Reconciliation(completed: bool, usage: Option<CallUsage>, output: Option<string>, reason: string)

  function ReconcileIn(r: Record, attemptId: Id, body: Reconciliation): Outcome {
    var k := AttemptIndex(r.attempts, attemptId);
    if k == |r.attempts| then Err(UnknownAttempt)
    else if !r.active then Err(DebateClosed)
    else if !Outstanding(r.attempts[k]) then Err(NotWaiting)
    else if body.completed && body.output.None? then Err(OutputMissing)
    else
      var a := r.attempts[k];
      var settled := a.(usage := if body.usage.Some? then body.usage else a.usage, reconciliation := Some(body.reason));
      Ok(UpdateAttempt(r, k, if body.completed then settled.(state := Completed, output := body.output)
                             else settled.(state := Failed, error := Some(body.reason))))
  }

  predicate Reviewed(reviews: seq<Review>, messageId: Id, reviewer: Id) {
    exists i :: 0 <= i < |reviews| && reviews[i].messageId == messageId && reviews[i].reviewer == reviewer
  }

  ghost function ReviewIn(r: Record, review: Review): Outcome {
    if review.status.Accepted? && (review.violations != [] || review.missing != []) then Err(BadInput)
    else if !r.active then Err(DebateClosed)
    else if !Fits(r.budget, UsageOf(r.attempts), false) then Err(OverBudget)
    else if r.roles.None? || r.roles.value.moderator != Some(review.reviewer) || review.reviewer in r.room.participants
    then Err(NotTheModerator)
    else if !HasMessage(r.room.messages, review.messageId) then Err(UnknownMessage)
    else if Reviewed(r.room.reviews, review.messageId, review.reviewer) then Ok(r)
    else Ok(r.(room := r.room.(reviews := r.room.reviews + [review])))
  }

  const PENDING_ADJUDICATION := "Independent adjudication has not completed."

  predicate AdjudicatorPinned(r: Record) { r.roles.Some? && r.roles.value.adjudicator.Some? }

  function Fallback(r: Record, now: Time): Adjudication {
    if AdjudicatorPinned(r) || !AllCompleted(r.attempts)
    then Adjudication(Held, PENDING_ADJUDICATION, None, [], now, None)
    else Adjudicate(r.room, now)
  }

  predicate PassedModerator(r: Record, messageId: Id) {
    r.roles.Some? && r.roles.value.moderator.Some? ==>
      exists i :: 0 <= i < |r.room.reviews| && r.room.reviews[i].messageId == messageId
        && r.room.reviews[i].reviewer == r.roles.value.moderator.value && r.room.reviews[i].status.Accepted?
  }

  predicate Cites(room: Room, m: Message, refs: seq<Id>) {
    refs != [] && forall i :: 0 <= i < |refs| ==> refs[i] in SupportRefs(room, m)
  }

  /** The fault of a decided adjudication, if any. */
  ghost function DecisionFault(r: Record, a: Adjudication): Option<Failure> {
    var k := if a.selected.Some? then IndexOf(r.room.messages, a.selected.value) else |r.room.messages|;
    if !Fits(r.budget, UsageOf(r.attempts), false) then Some(OverBudget)
    else if k == |r.room.messages| || !IsSupported(r.room, r.room.messages[k]) || !Cites(r.room, r.room.messages[k], a.evidenceRefs)
    then Some(Unsupported)
    else if !AllCompleted(r.attempts) then Some(Unsettled)
    else if AdjudicatorPinned(r) && a.adjudicator != r.roles.value.adjudicator then Some(NotTheAdjudicator)
    else if !PassedModerator(r, r.room.messages[k].messageId) then Some(ReviewMissing)
    else None
  }

  ghost function CloseIn(r: Record, adjudication: Option<Adjudication>, now: Time): Outcome {
    if !r.active then Err(DebateClosed)
    else
      var a := if adjudication.Some? then adjudication.value else Fallback(r, now);
      if a.status.Decided? && DecisionFault(r, a).Some? then Err(DecisionFault(r, a).value)
      else if a.status.Held? && (a.selected.Some? || a.evidenceRefs != []) then Err(HeldPublishes)
      else Ok(r.(room := r.room.(adjudication := Some(a)), active := false))
  }

  // ---------------------------------------------------------------- the service

  class DebateAggregate {
    var room: Room
    var active: bool
    const budget: Option<Limits>
    var roles: Option<Roles>
    var attempts: seq<Attempt>
    /** The cached totals; None until the first reservation. */
    var usage: Option<Totals>

    function View(): Record reads this { Record(room, active, budget, roles, attempts) }

    ghost predicate UsageIsCurrent() reads this {
      usage.Some? ==> usage.value.calls == |attempts| && usage.value.tokens == SumTokens(UsageOf(attempts))
                      && usage.value.money == SumMoney(UsageOf(attempts))
    }

    constructor (room: Room, budget: Option<Limits>)
      requires Fresh(room) && room.adjudication.None?
      ensures View() == Record(room, true, budget, None, []) && UsageIsCurrent()
    {
      this.room, this.active, this.budget, this.roles, this.attempts, this.usage := room, true, budget, None, [], None;
    }

    method Append(m: Message, attemptId: Option<Id>, now: Time) returns (error: Option<Failure>)
      requires UsageIsCurrent()
      modifies this
      ensures var next := AppendTo(old(View()), m, attemptId, now);
        if next.Ok? then error == None && View() == next.value else error == Some(next.error) && View() == old(View())
      ensures UsageIsCurrent()
    {
      if !active { return Some(DebateClosed); }
      var over := AssertCollaborationBudget(budget, UsageOf(attempts), false);
      if over.Some? { return Some(OverBudget); }
      if !WellFormed(m) { return Some(BadInput); }
      if FromChannel(m) && HasMessage(room.messages, m.messageId) { return None; }
      if (roles.Some? || budget.Some?) && attemptId.None? { return Some(Unmanaged); }
      if attemptId.Some? {
        var k := AttemptIndex(attempts, attemptId.value);
        if k == |attempts| || !attempts[k].state.Completed? || !ParticipantSlot(attempts[k].slot) { return Some(NotCompleted); }
        if m.speaker != attempts[k].agent || m.messageId != "message_" + AttemptSuffix(attemptId.value) { return Some(WrongMessage); }
      }
      match AppendMessage(room, m, now)
      case Ok(next) => room := next; return None;
      case Err(e) => return Some(Refused(e));
    }

    method BindRoles(bound: Roles) returns (error: Option<Failure>)
      requires UsageIsCurrent()
      modifies this
      ensures var next := BindTo(old(View()), bound);
        if next.Ok? then error == None && View() == next.value else error == Some(next.error) && View() == old(View())
      ensures UsageIsCurrent()
    {
      if !Independent(bound, room.participants) { return Some(RolesNotIndependent); }
      if roles.Some? && (roles.value.moderator != bound.moderator || roles.value.adjudicator != bound.adjudicator) {
        return Some(RolesPinned);
      }
      roles := Some(bound);
      return None;
    }

    method Reserve(slot: string, agent: Id, freshId: Id) returns (error: Option<Failure>, attempt: Option<Attempt>, reserved: bool)
      requires UsageIsCurrent()
      modifies this
      ensures var next := ReserveIn(old(View()), slot, agent, freshId);
        if next.Ok? then error == None && View() == next.value.0 && reserved == next.value.1
        else error == Some(next.error) && View() == old(View()) && !reserved
      ensures attempt.Some? ==> attempt.value in attempts && attempt.value.slot == slot && attempt.value.agent == agent
      ensures reserved ==> attempt.Some? && attempt.value.id == freshId && attempt.value.state.Started?
      ensures UsageIsCurrent()
    {
      error, attempt, reserved := None, None, false;
      var k := SlotIndex(attempts, slot);
      if k < |attempts| {
        if attempts[k].agent != agent { return Some(AnotherAgent), None, false; }
        return None, Some(attempts[k]), false;
      }
      if !active || AnyOutstanding(attempts) { return; }
      var over := AssertCollaborationBudget(budget, UsageOf(attempts), true);
      if over.Some? { return Some(OverBudget), None, false; }
      var a := Attempt(freshId, slot, agent, Started, None, None, None, None, None);
      attempts := attempts + [a];
      var totals := CollaborationUsage(UsageOf(attempts));
      usage := Some(totals);
      return None, Some(a), true;
    }

    method RecordUsage(attemptId: Id, reported: CallUsage)
      requires UsageIsCurrent()
      modifies this
      ensures View() == RecordUsageIn(old(View()), attemptId, reported) && UsageIsCurrent()
    {
      var k := AttemptIndex(attempts, attemptId);
      if k == |attempts| || !attempts[k].state.Started? || attempts[k].usage.Some? { return; }
      attempts := attempts[k := attempts[k].(usage := Some(reported))];
      var totals := CollaborationUsage(UsageOf(attempts));
      usage := Some(totals);
    }

    method RecordModel(attemptId: Id, model: string)
      requires UsageIsCurrent()
      modifies this
      ensures View() == RecordModelIn(old(View()), attemptId, model) && UsageIsCurrent()
    {
      var k := AttemptIndex(attempts, attemptId);
      if k == |attempts| || !attempts[k].state.Started? || attempts[k].model.Some? { return; }
      ghost var before := UsageOf(attempts);
      attempts := attempts[k := attempts[k].(model := Some(model))];
      assert UsageOf(attempts) == before;
    }

    method Settle(attemptId: Id, reply: Reply)
      requires UsageIsCurrent()
      modifies this
      ensures View() == SettleIn(old(View()), attemptId, reply) && UsageIsCurrent()
    {
      var k := AttemptIndex(attempts, attemptId);
      if k == |attempts| || !attempts[k].state.Started? { return; }
      var a := attempts[k];
      match reply {
        case Output(v) => attempts := attempts[k := a.(output := Some(v), state := Completed)];
        case CallFailed(e, unknown) =>
          attempts := attempts[k := a.(error := Some(e), state := if unknown then Unknown else Failed)];
      }
      var totals := CollaborationUsage(UsageOf(attempts));
      usage := Some(totals);
    }

    method Reconcile(attemptId: Id, body: Reconciliation) returns (error: Option<Failure>)
      requires UsageIsCurrent()
      modifies this
      ensures var next := ReconcileIn(old(View()), attemptId, body);
        if next.Ok? then error == None && View() == next.value else error == Some(next.error) && View() == old(View())
      ensures UsageIsCurrent()
    {
      var k := AttemptIndex(attempts, attemptId);
      if k == |attempts| { return Some(UnknownAttempt); }
      if !active { return Some(DebateClosed); }
      if !Outstanding(attempts[k]) { return Some(NotWaiting); }
      if body.completed && body.output.None? { return Some(OutputMissing); }
      var a := attempts[k];
      if body.usage.Some? { a := a.(usage := body.usage); }
      if body.completed { a := a.(state := Completed, output := body.output); }
      else { a := a.(state := Failed, error := Some(body.reason)); }
      attempts := attempts[k := a.(reconciliation := Some(body.reason))];
      var totals := CollaborationUsage(UsageOf(attempts));
      usage := Some(totals);
      return None;
    }

    method RecordReview(review: Review) returns (error: Option<Failure>)
      requires UsageIsCurrent()
      modifies this
      ensures var next := ReviewIn(old(View()), review);
        if next.Ok? then error == None && View() == next.value else error == Some(next.error) && View() == old(View())
      ensures UsageIsCurrent()
    {
      if review.status.Accepted? && (review.violations != [] || review.missing != []) { return Some(BadInput); }
      if !active { return Some(DebateClosed); }
      var over := AssertCollaborationBudget(budget, UsageOf(attempts), false);
      if over.Some? { return Some(OverBudget); }
      if roles.None? || roles.value.moderator != Some(review.reviewer) || review.reviewer in room.participants {
        return Some(NotTheModerator);
      }
      if !HasMessage(room.messages, review.messageId) { return Some(UnknownMessage); }
      if Reviewed(room.reviews, review.messageId, review.reviewer) { return None; }
      room := room.(reviews := room.reviews + [review]);
      return None;
    }

    /** The checks a decided adjudication must pass, in order. */
    method CheckDecision(a: Adjudication) returns (fault: Option<Failure>)
      ensures fault == DecisionFault(View(), a)
    {
      var over := AssertCollaborationBudget(budget, UsageOf(attempts), false);
      if over.Some? { return Some(OverBudget); }
      var k := if a.selected.Some? then IndexOf(room.messages, a.selected.value) else |room.messages|;
      if k == |room.messages| { return Some(Unsupported); }
      var selected := room.messages[k];
      var supported := IsSupported(room, selected) && Cites(room, selected, a.evidenceRefs);
      if !supported { return Some(Unsupported); }
      if !AllCompleted(attempts) { return Some(Unsettled); }
      if AdjudicatorPinned(View()) && a.adjudicator != roles.value.adjudicator { return Some(NotTheAdjudicator); }
      if !PassedModerator(View(), selected.messageId) { return Some(ReviewMissing); }
      return None;
    }

    method Close(adjudication: Option<Adjudication>, now: Time) returns (error: Option<Failure>)
      requires UsageIsCurrent()
      modifies this
      ensures var next := CloseIn(old(View()), adjudication, now);
        if next.Ok? then error == None && View() == next.value else error == Some(next.error) && View() == old(View())
      ensures UsageIsCurrent()
    {
      if !active { return Some(DebateClosed); }
      var before := View();
      var a := if adjudication.Some? then adjudication.value else Fallback(before, now);
      if a.status.Decided? {
        error := CheckDecision(a);
        if error.Some? { return; }
      } else if a.selected.Some? || a.evidenceRefs != [] {
        return Some(HeldPublishes);
      }
      room, active := room.(adjudication := Some(a)), false;
      assert View() == before.(room := before.room.(adjudication := Some(a)), active := false);
      return None;
    }
  }
}
