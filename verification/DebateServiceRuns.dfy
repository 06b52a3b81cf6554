/** What every run of service calls keeps on one debate record: calls are dispatched at most
    once, the budget is overshot by at most one call, and a decided room stays justified. */
module DebateServiceRuns {
  import opened Basics
  import opened Budget
  import opened Debate
  import opened DebateRuns
  import opened DebateService

  datatype Step =
    | Say(m: Message, source: Option<Id>, now: Time)
    | Bind(roles: Roles)
    | Reserve(slot: string, agent: Id, freshId: Id)
    | ReportUsage(attemptId: Id, usage: CallUsage)
    | ReportModel(attemptId: Id, model: string)
    | Settle(attemptId: Id, reply: Reply)
    | Reconcile(attemptId: Id, body: Reconciliation)
    | Judge(review: Review)
    | Close(adjudication: Option<Adjudication>, now: Time)

  function Stored(r: Record, o: Outcome): Record { match o case Ok(next) => next case Err(_) => r }

  ghost function Next(r: Record, s: Step): Record {
    match s
    case Say(m, source, now) => Stored(r, AppendTo(r, m, source, now))
    case Bind(roles) => Stored(r, BindTo(r, roles))
    case Reserve(slot, agent, freshId) =>
      (match ReserveIn(r, slot, agent, freshId) case Ok(stored) => stored.0 case Err(_) => r)
    case ReportUsage(id, usage) => RecordUsageIn(r, id, usage)
    case ReportModel(id, model) => RecordModelIn(r, id, model)
    case Settle(id, reply) => SettleIn(r, id, reply)
    case Reconcile(id, body) => Stored(r, ReconcileIn(r, id, body))
    case Judge(review) => Stored(r, ReviewIn(r, review))
    case Close(a, now) => Stored(r, CloseIn(r, a, now))
  }

  ghost function Run(r: Record, steps: seq<Step>): Record {
    if steps == [] then r else Next(Run(r, steps[..|steps| - 1]), steps[|steps| - 1])
  }

  /** The slots whose caller was told to dispatch, in order. */
  ghost function Dispatched(r: Record, steps: seq<Step>): seq<string> {
    if steps == [] then []
    else
      var rest, before, s := Dispatched(r, steps[..|steps| - 1]), Run(r, steps[..|steps| - 1]), steps[|steps| - 1];
      if Wins(before, s) then rest + [s.slot] else rest
  }

  /** The caller of this step reserved the slot and dispatches the call. */
  ghost predicate Wins(r: Record, s: Step) {
    && s.Reserve? && ReserveIn(r, s.slot, s.agent, s.freshId).Ok?
    && ReserveIn(r, s.slot, s.agent, s.freshId).value.1
  }

  ghost predicate New(r: Record) {
    Fresh(r.room) && r.room.adjudication.None? && r.active && r.roles.None? && r.attempts == []
  }

  function Slots(attempts: seq<Attempt>): seq<string> {
    seq(|attempts|, i requires 0 <= i < |attempts| => attempts[i].slot)
  }

  /** Only the latest attempt may still be waiting. */
  ghost predicate SettledButLatest(attempts: seq<Attempt>) {
    forall i :: 0 <= i < |attempts| - 1 ==> !Outstanding(attempts[i])
  }

  /** What a decided closing promises: a supported decision in the room, nonempty evidence
      taken from its context-level references, settled attempts and a respected budget. */
  ghost predicate Justified(r: Record) {
    r.room.adjudication.Some? && r.room.adjudication.value.status.Decided? ==>
      var a := r.room.adjudication.value;
      && a.selected.Some?
      && var k := IndexOf(r.room.messages, a.selected.value);
      && k < |r.room.messages| && IsSupported(r.room, r.room.messages[k]) && Cites(r.room, r.room.messages[k], a.evidenceRefs)
      && (forall x :: x in a.evidenceRefs ==> InContext(r.room.context, x))
      && AllCompleted(r.attempts) && Fits(r.budget, UsageOf(r.attempts), false)
  }

  ghost predicate Inv(r: Record) {
    && Recorded(r.room)
    && SettledButLatest(r.attempts)
    && NoDuplicates(Slots(r.attempts))
    && OvershootsByOneCall(r.budget, UsageOf(r.attempts))
    && (r.active <==> r.room.adjudication.None?)
    && Justified(r)
    && (r.roles.None? ==> r.room.reviews == [])
  }

  predicate DecidedClosed(r: Record) {
    !r.active && r.room.adjudication.Some? && r.room.adjudication.value.status.Decided?
  }

  // ---------------------------------------------------------------- attempts

  /** The steps that touch attempts only. */
  predicate TouchesAttempts(s: Step) {
    s.Reserve? || s.ReportUsage? || s.ReportModel? || s.Settle? || s.Reconcile?
  }

  ghost predicate ReplacesAt(before: seq<Attempt>, after: seq<Attempt>, k: nat)
    requires k < |before| == |after|
  {
    Outstanding(before[k]) && after == before[k := after[k]] && after[k].slot == before[k].slot && after[k].id == before[k].id
  }

  /** At most one attempt, not yet settled, is replaced, or one is added when none is waiting. */
  ghost predicate Replaces(before: seq<Attempt>, after: seq<Attempt>) {
    || after == before
    || (|after| == |before| && exists k :: 0 <= k < |before| && ReplacesAt(before, after, k))
    || (|after| == |before| + 1 && after[..|before|] == before && !AnyOutstanding(before))
  }

  lemma AttemptStepsReplace(r: Record, s: Step)
    requires TouchesAttempts(s)
    ensures Next(r, s) == r.(attempts := Next(r, s).attempts) && Replaces(r.attempts, Next(r, s).attempts)
    ensures DecidedClosed(r) && AllCompleted(r.attempts) ==> Next(r, s) == r
    ensures |Next(r, s).attempts| > |r.attempts| ==>
      Fits(r.budget, UsageOf(r.attempts), true) && SlotIndex(r.attempts, s.slot) == |r.attempts|
      && Next(r, s).attempts[|r.attempts|].slot == s.slot
  {
    if !s.Reserve? {
      var k := AttemptIndex(r.attempts, s.attemptId);
      var after := Next(r, s).attempts;
      if after != r.attempts {
        assert ReplacesAt(r.attempts, after, k);
      }
    }
  }

  lemma GrowingOvershootsByOne(budget: Option<Limits>, before: seq<Attempt>, a: Attempt)
    requires Fits(budget, UsageOf(before), true)
    ensures OvershootsByOneCall(budget, UsageOf(before + [a]))
  {
    assert UsageOf(before + [a]) == UsageOf(before) + [a.usage];
    AdmissionBoundsOvershoot(budget, UsageOf(before), a.usage);
  }

  lemma UnusedSlot(before: seq<Attempt>, slot: string)
    requires forall i :: 0 <= i < |before| ==> before[i].slot != slot
    ensures slot !in Slots(before)
  {}

  lemma GrowingKeepsSlots(before: seq<Attempt>, a: Attempt)
    requires NoDuplicates(Slots(before)) && a.slot !in Slots(before)
    ensures NoDuplicates(Slots(before + [a])) && Slots(before + [a]) == Slots(before) + [a.slot]
  {
    assert Slots(before + [a]) == Slots(before) + [a.slot];
    DistinctGrows(Slots(before), a.slot);
  }

  lemma GrowingKeepsOrder(budget: Option<Limits>, before: seq<Attempt>, a: Attempt)
    requires !AnyOutstanding(before) && NoDuplicates(Slots(before))
    requires Fits(budget, UsageOf(before), true) && (forall i :: 0 <= i < |before| ==> before[i].slot != a.slot)
    ensures var after := before + [a];
      SettledButLatest(after) && NoDuplicates(Slots(after)) && OvershootsByOneCall(budget, UsageOf(after))
      && Slots(after) == Slots(before) + [a.slot]
  {
    GrowingOvershootsByOne(budget, before, a);
    UnusedSlot(before, a.slot);
    GrowingKeepsSlots(before, a);
    forall i | 0 <= i < |before| ensures !Outstanding((before + [a])[i]) { assert (before + [a])[i] == before[i]; }
  }

  lemma UpdatingKeepsOrder(budget: Option<Limits>, before: seq<Attempt>, k: nat, a: Attempt)
    requires k < |before| && Outstanding(before[k]) && a.slot == before[k].slot
    requires SettledButLatest(before) && NoDuplicates(Slots(before)) && OvershootsByOneCall(budget, UsageOf(before))
    ensures var after := before[k := a];
      SettledButLatest(after) && NoDuplicates(Slots(after)) && OvershootsByOneCall(budget, UsageOf(after))
      && Slots(after) == Slots(before)
  {
    assert k == |before| - 1;
    LatestReportIsFree(budget, UsageOf(before), UsageOf(before[k := a]));
    assert Slots(before[k := a]) == Slots(before);
  }

  lemma ReplacingKeepsOrder(budget: Option<Limits>, before: seq<Attempt>, after: seq<Attempt>)
    requires Replaces(before, after) && SettledButLatest(before) && NoDuplicates(Slots(before))
    requires OvershootsByOneCall(budget, UsageOf(before))
    requires |after| > |before| ==>
      Fits(budget, UsageOf(before), true) && SlotIndex(before, after[|before|].slot) == |before|
    ensures SettledButLatest(after) && NoDuplicates(Slots(after)) && OvershootsByOneCall(budget, UsageOf(after))
    ensures Slots(after) == if |after| > |before| then Slots(before) + [after[|before|].slot] else Slots(before)
  {
    if |after| > |before| {
      assert after == before + [after[|before|]];
      GrowingKeepsOrder(budget, before, after[|before|]);
    } else if after != before {
      var k :| 0 <= k < |before| && ReplacesAt(before, after, k);
      UpdatingKeepsOrder(budget, before, k, after[k]);
    }
  }

  /** A settled attempt never changes again: late replies, late usage and reconciliations included. */
  lemma SettledAttemptsAreFrozen(r: Record, s: Step, i: nat)
    requires i < |r.attempts| && !Outstanding(r.attempts[i])
    ensures i < |Next(r, s).attempts| && Next(r, s).attempts[i] == r.attempts[i]
  {
    if TouchesAttempts(s) { AttemptStepsReplace(r, s); }
  }

  // ---------------------------------------------------------------- the room

  lemma ClosingIsJustified(r: Record, a: Adjudication)
    requires a.status.Decided? && DecisionFault(r, a).None? && Recorded(r.room)
    ensures Justified(r.(room := r.room.(adjudication := Some(a)), active := false))
  {
    var k := IndexOf(r.room.messages, a.selected.value);
    var step := SetAdjudication(a);
    var after := ApplyAll(r.room, [step]);
    assert [step][..0] == [];
    assert after == Apply(ApplyAll(r.room, []), step) == r.room.(adjudication := Some(a));
    SupportIsStable(r.room, [step], k);
    SupportedHasEvidence(r.room, r.room.messages[k]);
    forall x | x in a.evidenceRefs ensures InContext(r.room.context, x) {
      var i :| 0 <= i < |a.evidenceRefs| && a.evidenceRefs[i] == x;
    }
  }

  lemma ClosedRoomIsRecorded(room: Room, a: Adjudication)
    requires Recorded(room)
    ensures Recorded(room.(adjudication := Some(a)))
  {
    ApplyKeepsRecorded(room, SetAdjudication(a));
  }

  lemma ClosedIsInv(r: Record, a: Adjudication)
    requires Inv(r) && (a.status.Decided? ==> DecisionFault(r, a).None?)
    ensures Inv(r.(room := r.room.(adjudication := Some(a)), active := false))
  {
    ClosedRoomIsRecorded(r.room, a);
    if a.status.Decided? { ClosingIsJustified(r, a); }
  }

  lemma CloseKeepsInv(r: Record, adjudication: Option<Adjudication>, now: Time)
    requires Inv(r)
    ensures Inv(Stored(r, CloseIn(r, adjudication, now)))
  {
    if CloseIn(r, adjudication, now).Ok? { ClosedIsInv(r, if adjudication.Some? then adjudication.value else Fallback(r, now)); }
  }

  lemma RoomStepKeepsInv(r: Record, s: Step)
    requires Inv(r) && (s.Say? || s.Judge? || s.Bind?)
    ensures Inv(Next(r, s))
  {
    if s.Say? {
      ApplyKeepsRecorded(r.room, Append(s.m, s.now));
    } else if s.Judge? {
      ApplyKeepsRecorded(r.room, AddReview(s.review));
    }
  }

  lemma StepKeepsInv(r: Record, s: Step)
    requires Inv(r)
    ensures Inv(Next(r, s))
  {
    if TouchesAttempts(s) {
      AttemptStepsReplace(r, s);
      ReplacingKeepsOrder(r.budget, r.attempts, Next(r, s).attempts);
    } else if s.Close? {
      CloseKeepsInv(r, s.adjudication, s.now);
    } else {
      RoomStepKeepsInv(r, s);
    }
  }

  lemma {:induction false} EveryRunKeepsInv(r: Record, steps: seq<Step>)
    requires Inv(r)
    ensures Inv(Run(r, steps))
  {
    if steps != [] {
      EveryRunKeepsInv(r, steps[..|steps| - 1]);
      StepKeepsInv(Run(r, steps[..|steps| - 1]), steps[|steps| - 1]);
    }
  }

  // ---------------------------------------------------------------- whole runs

  lemma NewIsInv(r: Record)
    requires New(r)
    ensures Inv(r)
  {}

  /** Budget safety: in every reachable record the overshoot is at most one call, and at most
      the latest attempt is waiting. */
  lemma EveryRunOvershootsByOneCall(r: Record, steps: seq<Step>)
    requires New(r)
    ensures var now := Run(r, steps);
      OvershootsByOneCall(now.budget, UsageOf(now.attempts)) && SettledButLatest(now.attempts)
  {
    NewIsInv(r);
    EveryRunKeepsInv(r, steps);
  }

  lemma WinningAddsItsSlot(r: Record, s: Step)
    requires Inv(r)
    ensures Slots(Next(r, s).attempts) == if Wins(r, s) then Slots(r.attempts) + [s.slot] else Slots(r.attempts)
  {
    if TouchesAttempts(s) {
      AttemptStepsReplace(r, s);
      ReplacingKeepsOrder(r.budget, r.attempts, Next(r, s).attempts);
    }
  }

  /** Each slot is dispatched at most once, and exactly the recorded attempts were dispatched. */
  lemma {:induction false} DispatchedOncePerSlot(r: Record, steps: seq<Step>)
    requires New(r)
    ensures Dispatched(r, steps) == Slots(Run(r, steps).attempts) && NoDuplicates(Dispatched(r, steps))
  {
    NewIsInv(r);
    if steps != [] {
      var front, s := steps[..|steps| - 1], steps[|steps| - 1];
      DispatchedOncePerSlot(r, front);
      EveryRunKeepsInv(r, front);
      EveryRunKeepsInv(r, steps);
      WinningAddsItsSlot(Run(r, front), s);
    }
  }

  /** In every reachable record a decided room is justified. */
  lemma EveryDecidedRoomIsJustified(r: Record, steps: seq<Step>)
    requires New(r) && DecidedClosed(Run(r, steps))
    ensures Justified(Run(r, steps))
  {
    NewIsInv(r);
    EveryRunKeepsInv(r, steps);
  }

  lemma DecidedRoomStep(r: Record, s: Step)
    requires Justified(r) && DecidedClosed(r)
    ensures Next(r, s).room == r.room && Next(r, s).attempts == r.attempts && DecidedClosed(Next(r, s))
  {
    if TouchesAttempts(s) { AttemptStepsReplace(r, s); }
  }

  /** After a decided closing no later service call changes the room or the attempts. */
  lemma {:induction false} DecidedRoomIsFrozen(r: Record, steps: seq<Step>)
    requires Inv(r) && DecidedClosed(r)
    ensures var later := Run(r, steps);
      later.room == r.room && later.attempts == r.attempts && !later.active && DecidedClosed(later)
  {
    if steps != [] {
      DecidedRoomIsFrozen(r, steps[..|steps| - 1]);
      EveryRunKeepsInv(r, steps[..|steps| - 1]);
      DecidedRoomStep(Run(r, steps[..|steps| - 1]), steps[|steps| - 1]);
    }
  }

  // ---------------------------------------------------------------- pinned roles

  /** The adjudicator is the pinned one, and the pinned Moderator accepted the decision. */
  predicate RolesMatched(r: Record) {
    DecidedClosed(r) && r.room.adjudication.value.selected.Some? ==>
      && (AdjudicatorPinned(r) ==> r.room.adjudication.value.adjudicator == r.roles.value.adjudicator)
      && PassedModerator(r, r.room.adjudication.value.selected.value)
  }

  lemma RolesMatchWhenClosing(r: Record, adjudication: Option<Adjudication>, now: Time)
    requires Inv(r) && CloseIn(r, adjudication, now).Ok?
    ensures RolesMatched(CloseIn(r, adjudication, now).value)
  {
    var a := if adjudication.Some? then adjudication.value else Fallback(r, now);
    if a.status.Decided? { assert DecisionFault(r, a).None?; }
  }

  /** The roles asked for match the decision already taken: roles were pinned already, or the new
      ones ask for no Moderator and for no adjudicator but the recorded one. */
  predicate AsksForMatch(r: Record, roles: Roles)
    requires DecidedClosed(r)
  {
    || r.roles.Some?
    || (roles.moderator.None?
        && (roles.adjudicator.None? || roles.adjudicator == r.room.adjudication.value.adjudicator))
  }

  /** Binding roles never checks the status, so it can pin roles a decided room does not match. */
  lemma BindingKeepsMatchIff(r: Record, roles: Roles)
    requires Inv(r) && DecidedClosed(r) && RolesMatched(r) && BindTo(r, roles).Ok?
    ensures RolesMatched(BindTo(r, roles).value) <==> AsksForMatch(r, roles)
  {
    assert Justified(r);
  }

  /** Every other call keeps the match. */
  lemma OtherCallsKeepMatch(r: Record, s: Step)
    requires Inv(r) && RolesMatched(r) && !s.Bind?
    ensures RolesMatched(Next(r, s))
  {
    if DecidedClosed(r) {
      DecidedRoomStep(r, s);
      if TouchesAttempts(s) { AttemptStepsReplace(r, s); }
    } else if s.Close? && CloseIn(r, s.adjudication, s.now).Ok? {
      RolesMatchWhenClosing(r, s.adjudication, s.now);
    } else if TouchesAttempts(s) {
      AttemptStepsReplace(r, s);
    }
  }

  /** Once broken the match stays broken: the roles are pinned and the room is frozen. */
  lemma MismatchStays(r: Record, s: Step)
    requires Inv(r) && DecidedClosed(r) && !RolesMatched(r)
    ensures DecidedClosed(Next(r, s)) && !RolesMatched(Next(r, s))
  {
    DecidedRoomStep(r, s);
    if TouchesAttempts(s) { AttemptStepsReplace(r, s); }
  }

  /** Every successful binding that comes after a decided closing asks for a match. */
  ghost predicate BindingsAskForMatch(r: Record, steps: seq<Step>) {
    steps != [] ==>
      var before, s := Run(r, steps[..|steps| - 1]), steps[|steps| - 1];
      && BindingsAskForMatch(r, steps[..|steps| - 1])
      && (s.Bind? && DecidedClosed(before) && BindTo(before, s.roles).Ok? ==> AsksForMatch(before, s.roles))
  }

  /** In every reachable record a decided debate matches its pinned roles, if and only if every
      binding after the closing asked for a match. */
  lemma {:induction false} PinnedRolesMatchIff(r: Record, steps: seq<Step>)
    requires New(r)
    ensures RolesMatched(Run(r, steps)) <==> BindingsAskForMatch(r, steps)
    ensures RolesMatched(Run(r, steps)) || DecidedClosed(Run(r, steps))
  {
    NewIsInv(r);
    if steps != [] {
      var before, s := Run(r, steps[..|steps| - 1]), steps[|steps| - 1];
      PinnedRolesMatchIff(r, steps[..|steps| - 1]);
      EveryRunKeepsInv(r, steps[..|steps| - 1]);
      if !RolesMatched(before) {
        MismatchStays(before, s);
      } else if s.Bind? {
        if DecidedClosed(before) && BindTo(before, s.roles).Ok? { BindingKeepsMatchIff(before, s.roles); }
      } else {
        OtherCallsKeepMatch(before, s);
      }
    }
  }

  // ---------------------------------------------------------------- the default adjudicator

  /** A supported message cited with all of its support has no fault once nothing else is pinned. */
  lemma FullCitationHasNoFault(r: Record, a: Adjudication, i: nat)
    requires Recorded(r.room) && r.roles.None? && r.budget.None? && AllCompleted(r.attempts)
    requires i < |r.room.messages| && IsSupported(r.room, r.room.messages[i])
    requires a.selected == Some(r.room.messages[i].messageId)
    requires a.evidenceRefs == SupportRefs(r.room, r.room.messages[i]) && a.evidenceRefs != []
    ensures DecisionFault(r, a).None?
  {
    assert IndexOf(r.room.messages, a.selected.value) == i;
  }

  /** With no pinned roles and no budget, closing an open record always succeeds, and it
      decides exactly when every attempt completed and the room holds a supported decision. */
  lemma DefaultAdjudicationPasses(r: Record, now: Time)
    requires Inv(r) && r.active && r.roles.None? && r.budget.None?
    ensures CloseIn(r, None, now).Ok?
    ensures DecidedClosed(CloseIn(r, None, now).value) <==> AllCompleted(r.attempts) && LatestSupported(r.room).Some?
  {
    if AllCompleted(r.attempts) {
      var i := AdjudicatorTakesLatestSupported(r.room, now);
      var a := Adjudicate(r.room, now);
      if a.status.Decided? { FullCitationHasNoFault(r, a, i); }
    }
  }

  // ---------------------------------------------------------------- a mismatch that happens

  lemma AcceptedDecisionIsSupported(room: Room, m: Message, now: Time)
    requires Recorded(room) && m.kind.Decision? && !Contested(room.reviews, m.messageId)
    requires AppendMessage(room, m, now).Ok? && Moderate(room, m, now).status.Accepted?
    ensures LatestSupported(AppendMessage(room, m, now).value).Some?
    ensures AppendMessage(room, m, now).value.participants == room.participants
  {
    var next, n := AppendMessage(room, m, now).value, |room.messages|;
    ApplyKeepsRecorded(room, Append(m, now));
    assert next.messages[n] == m && next.moderation[n] == Moderate(room, m, now);
    SupportedIffRecordedAccepted(next, n);
    var i := FindLastFinds(next.messages, x => IsSupported(next, x));
  }

  lemma SayingStores(r: Record, m: Message)
    requires New(r) && r.budget.None? && m.origin.None? && AppendMessage(r.room, m, 0).Ok?
    ensures Next(r, Say(m, None, 0)) == r.(room := AppendMessage(r.room, m, 0).value)
  {}

  lemma SayingKeepsInv(r: Record, m: Message)
    requires New(r)
    ensures Inv(Next(r, Say(m, None, 0)))
  {
    NewIsInv(r);
    StepKeepsInv(r, Say(m, None, 0));
  }

  lemma FirstDecisionIsSupported(r: Record, m: Message)
    requires New(r) && m.kind.Decision?
    requires AppendMessage(r.room, m, 0).Ok? && Moderate(r.room, m, 0).status.Accepted?
    ensures LatestSupported(AppendMessage(r.room, m, 0).value).Some?
    ensures AppendMessage(r.room, m, 0).value.participants == r.room.participants
  {
    FreshIsRecorded(r.room);
    AcceptedDecisionIsSupported(r.room, m, 0);
  }

  lemma FreshIsRecorded(room: Room)
    requires Fresh(room)
    ensures Recorded(room) && forall id :: !Contested(room.reviews, id)
  {}

  lemma SayingADecision(r: Record, m: Message) returns (said: Record)
    requires New(r) && r.budget.None? && m.kind.Decision? && m.origin.None?
    requires AppendMessage(r.room, m, 0).Ok? && Moderate(r.room, m, 0).status.Accepted?
    ensures said == Next(r, Say(m, None, 0))
    ensures Inv(said) && said.active && said.roles.None? && said.budget.None? && said.attempts == []
    ensures LatestSupported(said.room).Some? && said.room.participants == r.room.participants
  {
    said := Next(r, Say(m, None, 0));
    SayingKeepsInv(r, m);
    SayingStores(r, m);
    FirstDecisionIsSupported(r, m);
  }

  lemma ClosingADecision(said: Record) returns (closed: Record)
    requires Inv(said) && said.active && said.roles.None? && said.budget.None? && said.attempts == []
    requires LatestSupported(said.room).Some?
    ensures closed == Next(said, Close(None, 0)) && Inv(closed) && DecidedClosed(closed) && RolesMatched(closed)
    ensures closed.roles.None? && closed.room.participants == said.room.participants
    ensures closed.room.adjudication.value.adjudicator.None?
  {
    DefaultAdjudicationPasses(said, 0);
    closed := Next(said, Close(None, 0));
    StepKeepsInv(said, Close(None, 0));
    RolesMatchWhenClosing(said, None, 0);
  }

  /** A family of reachable runs, inhabited by the example above: one accepted decision, the
      default closing, and then a binding that pins an adjudicator the decision never had. */
  lemma PinningAfterDecisionMismatches(r: Record, m: Message, adjudicator: Id) returns (closed: Record)
    requires New(r) && r.budget.None? && m.kind.Decision? && m.origin.None?
    requires AppendMessage(r.room, m, 0).Ok? && Moderate(r.room, m, 0).status.Accepted?
    requires adjudicator !in r.room.participants
    ensures closed == Next(Next(r, Say(m, None, 0)), Close(None, 0)) && DecidedClosed(closed) && RolesMatched(closed)
    ensures !RolesMatched(Next(closed, Bind(Roles(None, Some(adjudicator)))))
  {
    var said := SayingADecision(r, m);
    closed := ClosingADecision(said);
    BindingKeepsMatchIff(closed, Roles(None, Some(adjudicator)));
  }
}
