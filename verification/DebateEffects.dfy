/** What each service call stores in a debate record: every attempt goes its own way, and messages,
    reviews and roles are taken exactly under their conditions. */
module DebateEffects {
  import opened Basics
  import opened Budget
  import opened Debate
  import opened DebateRuns
  import opened DebateService
  import opened DebateServiceRuns

  // ---------------------------------------------------------------- the life of one attempt

  /** Attempt ids are random and do not repeat, so each attempt is the first of its id. */
  ghost predicate Findable(attempts: seq<Attempt>, k: nat) {
    k < |attempts| && forall j :: 0 <= j < k ==> attempts[j].id != attempts[k].id
  }

  function Reported(usage: Option<CallUsage>, before: Option<CallUsage>): Option<CallUsage> {
    match usage case Some(_) => usage case None => before
  }

  function AfterReply(a: Attempt, reply: Reply): Attempt {
    match reply
    case Output(value) => a.(output := Some(value), state := Completed)
    case CallFailed(error, unknown) => a.(error := Some(error), state := if unknown then Unknown else Failed)
  }

  function AfterReconciliation(a: Attempt, body: Reconciliation): Attempt {
    var told := a.(usage := Reported(body.usage, a.usage), reconciliation := Some(body.reason));
    if !body.completed then told.(state := Failed, error := Some(body.reason))
    else if body.output.Some? then told.(state := Completed, output := body.output)
    else a
  }

  /** An attempt seen on its own: started, it takes one reply, one report of its usage and one model;
      started or unknown, an open debate can reconcile it; after that nothing changes it. */
  function AttemptAfter(active: bool, s: Step, a: Attempt): Attempt {
    match s
    case ReportUsage(id, usage) => if id == a.id && a.state.Started? && a.usage.None? then a.(usage := Some(usage)) else a
    case ReportModel(id, model) => if id == a.id && a.state.Started? && a.model.None? then a.(model := Some(model)) else a
    case Settle(id, reply) => if id == a.id && a.state.Started? then AfterReply(a, reply) else a
    case Reconcile(id, body) =>
      if id == a.id && active && (a.state.Started? || a.state.Unknown?) then AfterReconciliation(a, body) else a
    case _ => a
  }

  lemma SameIndex(attempts: seq<Attempt>, k: nat, id: Id)
    requires Findable(attempts, k)
    ensures AttemptIndex(attempts, id) == k <==> attempts[k].id == id
  {}

  /** In every step of the whole debate each attempt does what it would do on its own. */
  lemma EveryAttemptGoesItsWay(r: Record, s: Step, k: nat)
    requires Findable(r.attempts, k)
    ensures k < |Next(r, s).attempts| && Next(r, s).attempts[k] == AttemptAfter(r.active, s, r.attempts[k])
  {
    match s
    case ReportUsage(id, _) => SameIndex(r.attempts, k, id);
    case ReportModel(id, _) => SameIndex(r.attempts, k, id);
    case Settle(id, _) => SameIndex(r.attempts, k, id);
    case Reconcile(id, _) => SameIndex(r.attempts, k, id);
    case _ =>
  }

  // ---------------------------------------------------------------- reserving a call

  /** A slot is won, and its attempt starts with nothing reported, exactly when the debate is open, the
      slot unused, no attempt waiting and the budget has room. A used slot is refused to another agent. */
  lemma ReservingExactly(r: Record, slot: string, agent: Id, freshId: Id)
    ensures var answer := ReserveIn(r, slot, agent, freshId);
      var used := exists k :: 0 <= k < |r.attempts| && r.attempts[k].slot == slot;
      var waiting := exists k :: 0 <= k < |r.attempts| && (r.attempts[k].state.Started? || r.attempts[k].state.Unknown?);
      && (used ==> forall k {:trigger r.attempts[k]} ::
            0 <= k < |r.attempts| && r.attempts[k].slot == slot && (forall j :: 0 <= j < k ==> r.attempts[j].slot != slot) ==>
              answer == if r.attempts[k].agent == agent then Ok((r, false)) else Err(AnotherAgent))
      && (!used && (!r.active || waiting) ==> answer == Ok((r, false)))
      && (!used && r.active && !waiting ==>
            answer == if Fits(r.budget, UsageOf(r.attempts), true)
                      then Ok((r.(attempts := r.attempts + [Attempt(freshId, slot, agent, Started, None, None, None, None, None)]), true))
                      else Err(OverBudget))
  {}

  // ---------------------------------------------------------------- messages

  /** A completed participant's attempt whose agent and id the message carries. */
  ghost predicate ComesFrom(r: Record, m: Message, attemptId: Id) {
    exists k :: 0 <= k < |r.attempts| && r.attempts[k].id == attemptId && (forall j :: 0 <= j < k ==> r.attempts[j].id != attemptId)
      && r.attempts[k].state.Completed? && "participant:" <= r.attempts[k].slot
      && m.speaker == r.attempts[k].agent && m.messageId == "message_" + (if |attemptId| >= 8 then attemptId[8..] else "")
  }

  ghost predicate Said(room: Room, id: Id) { exists k :: 0 <= k < |room.messages| && room.messages[k].messageId == id }

  /** A message joins the room exactly when the debate is open and within its budget, a managed debate
      names the attempt it comes from, and the room admits it; a channel's repeat is taken silently.
      Nothing else of the record changes. */
  lemma SayingExactly(r: Record, m: Message, source: Option<Id>, now: Time)
    ensures var answer := AppendTo(r, m, source, now);
      var repeat := (m.origin == Some("feishu") || m.origin == Some("hermes")) && Said(r.room, m.messageId);
      && (answer.Ok? <==>
            && r.active && Fits(r.budget, UsageOf(r.attempts), false) && WellFormed(m)
            && (repeat || ((source.None? ==> r.roles.None? && r.budget.None?) && (source.Some? ==> ComesFrom(r, m, source.value))
                           && AppendMessage(r.room, m, now).Ok?)))
      && (answer.Ok? && repeat ==> answer.value == r)
      && (answer.Ok? && !repeat ==>
            && answer.value == r.(room := answer.value.room)
            && answer.value.room == r.room.(messages := r.room.messages + [m], moderation := r.room.moderation + [Moderate(r.room, m, now)]))
  {
    if source.Some? {
      var k := AttemptIndex(r.attempts, source.value);
      assert AttemptFault(r, m, source.value).None? <==> ComesFrom(r, m, source.value);
    }
    assert HasMessage(r.room.messages, m.messageId) <==> Said(r.room, m.messageId);
  }

  // ---------------------------------------------------------------- reviews and roles

  ghost predicate SeenFrom(reviews: seq<Review>, id: Id, reviewer: Id) {
    exists k :: 0 <= k < |reviews| && reviews[k].messageId == id && reviews[k].reviewer == reviewer
  }

  /** A review joins the room exactly once per message and reviewer, and only from the pinned Moderator,
      who is no participant, about a message of an open debate within its budget. */
  lemma ReviewingExactly(r: Record, review: Review)
    ensures var answer := ReviewIn(r, review);
      var seen := SeenFrom(r.room.reviews, review.messageId, review.reviewer);
      && (answer.Ok? <==>
            && r.active && Fits(r.budget, UsageOf(r.attempts), false)
            && (review.status.Accepted? ==> review.violations == [] && review.missing == [])
            && r.roles.Some? && r.roles.value.moderator == Some(review.reviewer) && review.reviewer !in r.room.participants
            && Said(r.room, review.messageId))
      && (answer.Ok? ==> answer.value == if seen then r else r.(room := r.room.(reviews := r.room.reviews + [review])))
  {
    assert HasMessage(r.room.messages, review.messageId) <==> Said(r.room, review.messageId);
  }

  /** Roles are pinned exactly when they are distinct, nobody in them takes part, and none or the same
      were pinned before. */
  lemma BindingExactly(r: Record, roles: Roles)
    ensures var answer := BindTo(r, roles);
      && (answer.Ok? <==>
            && (r.roles.None? || r.roles == Some(roles))
            && (roles.moderator.Some? ==> roles.moderator.value !in r.room.participants && roles.adjudicator != roles.moderator)
            && (roles.adjudicator.Some? ==> roles.adjudicator.value !in r.room.participants))
      && (answer.Ok? ==> answer.value == r.(roles := Some(roles)))
  {}
}
