/** What the write guard of the board lets pass: the rules card by card, what a refusal says, and
    when exactly a write is stored. */
module TaskBoardGuard {
  import opened Basics
  import opened TaskBoard

  // ---------------------------------------------------------------- the rules

  /** What a card must be for this action: free to be claimed, not yet accepted with this run, blocked to
      be unblocked, and so on. An open offer binds transfers to its receiver; a card handed up
      takes nothing. */
  ghost predicate Fitting(d: Decision, a: Action) {
    && !d.handedUp
    && (a.kind.Claim? ==> d.assignee.None? && a.agent.Some?)
    && (a.kind.Accept? ==> d.acceptedRun != a.acceptedRun)
    && (a.kind.Unblock? ==> d.blockedNote.Some?)
    && (a.kind.Restore? ==> d.cancelled)
    && (a.kind.Cancel? || a.kind.Adopt? || a.kind.Offer? ==> !d.cancelled)
    && (a.kind.Propose? ==> d.proposedBy.None?)
    && (a.kind.Adopt? ==> d.proposedBy.Some? && !d.adopted)
    && (a.kind.Offer? ==> d.offer.None? && (a.agent.Some? ==> d.assignee != a.agent))
    && (a.kind.Decline? ==> d.offer.Some?)
    && (a.kind.Transfer? && d.offer.Some? ==> a.agent == Some(d.offer.value.agent))
  }

  lemma VerdictMeans(log: Log, a: Action)
    ensures Verdict(log, a).None? <==> Fitting(DecisionOf(log, a.conversationId, a.taskId), a)
  {}

  /** What a refusal says of the card is so. */
  predicate Truthful(x: Conflict, d: Decision, a: Action) {
    match x
    case WasHandedUp => d.handedUp
    case AlreadyClaimed => a.kind.Claim? && d.assignee == a.agent
    case ClaimedBy(holder) => a.kind.Claim? && d.assignee == Some(holder) && a.agent != Some(holder)
    case AlreadyAccepted => a.kind.Accept? && d.acceptedRun == a.acceptedRun
    case NotBlocked => a.kind.Unblock? && d.blockedNote.None?
    case NotCancelled => a.kind.Restore? && !d.cancelled
    case AlreadyCancelled => (a.kind.Cancel? || a.kind.Offer?) && d.cancelled
    case AlreadyProposed => a.kind.Propose? && d.proposedBy.Some?
    case NotProposed => a.kind.Adopt? && d.proposedBy.None?
    case AlreadyAdopted => a.kind.Adopt? && d.adopted
    case ProposalCancelled => a.kind.Adopt? && d.cancelled
    case OfferOpen(offeree) => (a.kind.Offer? || a.kind.Transfer?) && d.offer.Some? && d.offer.value.agent == offeree
    case AlreadyHeld => a.kind.Offer? && a.agent.Some? && d.assignee == a.agent
    case NoOfferOpen => a.kind.Decline? && d.offer.None?
    case _ => false
  }

  lemma RefusalsAreTruthful(log: Log, a: Action)
    ensures Verdict(log, a).Some? ==> Truthful(Verdict(log, a).value, DecisionOf(log, a.conversationId, a.taskId), a)
  {}

  // ---------------------------------------------------------------- one action after another

  /** The actions a card takes at most once in a row. */
  predicate Once(a: Action) {
    || a.kind.Claim? || a.kind.Unblock? || a.kind.Restore? || a.kind.Cancel? || a.kind.Propose? || a.kind.Adopt? || a.kind.Offer?
    || a.kind.Decline? || a.kind.HandUp? || (a.kind.Accept? && a.acceptedRun.Some?)
  }

  lemma AfterAction(log: Log, key: Key, a: Action, line: string)
    ensures DecisionOf(log + [Event(key, Some(a), line, false)], a.conversationId, a.taskId)
         == Applied(DecisionOf(log, a.conversationId, a.taskId), a, line)
  {
    var next := log + [Event(key, Some(a), line, false)];
    assert next[..|log|] == log;
  }

  /** An action that passed and is not open to repetition is refused right after it. */
  lemma NotTwiceInARow(log: Log, key: Key, a: Action, line: string)
    requires Once(a) && (NeedsAgent(a.kind) ==> a.agent.Some?) && Verdict(log, a).None?
    ensures Verdict(log + [Event(key, Some(a), line, false)], a).Some?
  {
    AfterAction(log, key, a, line);
  }

  /** Whether what undoes or answers an action passes on the card it leaves behind. */
  predicate Answered(d: Decision, a: Action, b: Action, passes: bool) {
    && (a.kind.Block? && b.kind.Unblock? ==> passes)
    && (a.kind.Cancel? && b.kind.Restore? ==> passes)
    && (a.kind.Restore? && b.kind.Cancel? ==> passes)
    && (a.kind.Propose? && b.kind.Adopt? ==> (passes <==> !d.cancelled))
    && (a.kind.Offer? && b.kind.Decline? ==> passes)
    && (a.kind.Offer? && b.kind.Transfer? ==> (passes <==> b.agent == a.agent))
    && ((a.kind.Refuse? || a.kind.Release?) && b.kind.Claim? ==> (passes <==> b.agent.Some?))
    && (a.kind.Claim? && b.kind.Claim? ==> !passes)
  }

  lemma AnswersFit(d: Decision, a: Action, line: string, b: Action)
    requires (NeedsAgent(a.kind) ==> a.agent.Some?) && CheckAction(a, Judged(d, a)).None?
    ensures var next := Applied(d, a, line); Answered(d, a, b, CheckAction(b, Judged(next, b)).None?)
  {
    match a.kind
    case Block =>
    case Cancel =>
    case Restore =>
    case Propose =>
    case Offer =>
    case Refuse =>
    case Release =>
    case Claim =>
    case _ =>
  }

  /** What undoes or answers an action passes right after it: unblocking a block, restoring a cancellation, adopting a
      proposal on a card that stands, declining an offer, transferring the card to its
      receiver and to no other, and claiming what was given back. */
  lemma AnswersPass(log: Log, key: Key, a: Action, line: string, b: Action)
    requires (NeedsAgent(a.kind) ==> a.agent.Some?) && Verdict(log, a).None?
    requires b.conversationId == a.conversationId && b.taskId == a.taskId
    ensures var next := log + [Event(key, Some(a), line, false)]; var c, t := a.conversationId, a.taskId;
      Answered(DecisionOf(log, c, t), a, b, Verdict(next, b).None?)
  {
    AfterAction(log, key, a, line);
    AnswersFit(DecisionOf(log, a.conversationId, a.taskId), a, line, b);
  }

  // ---------------------------------------------------------------- one write

  predicate Explained(k: Kind) {
    k.Refuse? || k.Release? || k.RequestChanges? || k.Block? || k.Unblock? || k.Cancel? || k.Restore? || k.Decline?
  }

  /** The write names whom it must and says why where it must. */
  predicate Complete(a: Action) {
    && (a.kind.Claim? || a.kind.Assign? || a.kind.Transfer? || a.kind.Offer? || a.kind.Propose? ==> a.agent.Some?)
    && (Explained(a.kind) ==> a.reason.Some? && a.reason.value != "")
  }

  /** What surrounds the card allows the write: whom it names is there, an accepted run succeeded
      and is still the card's, whoever is given work carries less than three, and the card is the one that was seen. */
  predicate Welcome(a: Action, v: View) {
    && v.onBoard && !v.cardChanged
    && (a.agent.Some? ==> a.agent.value == "aeeis" || a.agent.value in v.members)
    && (a.kind.Accept? ==> v.succeeded && !v.runChanged)
    && (a.agent.Some? && (a.kind.Assign? || a.kind.Transfer? || a.kind.RequestChanges?) ==> v.load < 3)
    && (a.agent.Some? && (a.kind.Assign? || a.kind.Transfer?) ==> v.loadNow < 3)
  }

  lemma WelcomeMeans(a: Action, v: View)
    ensures Unfit(a, v).None? && Late(a, v).None? <==> Welcome(a, v)
  {}

  lemma CompleteMeans(a: Action)
    ensures Complete(a) <==> (NeedsAgent(a.kind) ==> a.agent.Some?) && (NeedsReason(a.kind) ==> TextOf(a.reason) != "")
  {}

  /** A write under a new key is stored, as the last event of the log, exactly when it is complete, the
      room takes writes, its surroundings allow it and the guard lets it pass. */
  lemma WrittenExactly(log: Log, key: Key, a: Action, line: string, v: View)
    requires forall i :: 0 <= i < |log| ==> log[i].key != key
    ensures var stored := Complete(a) && v.writable && Welcome(a, v) && Fitting(DecisionOf(log, a.conversationId, a.taskId), a);
      && (Refusal(log, key, a, v).None? <==> stored)
      && Written(log, key, a, line, v) == if stored then log + [Event(key, Some(a), line, false)] else log
  {
    VerdictMeans(log, a);
    WelcomeMeans(a, v);
    CompleteMeans(a);
  }

  /** The same action on the same card, but for the run an acceptance names. */
  predicate SameAction(a: Action, b: Action) {
    a.kind == b.kind && a.conversationId == b.conversationId && a.taskId == b.taskId && a.agent == b.agent && a.reason == b.reason
  }

  /** A write under a key the log has stores nothing, and is answered without a refusal exactly when it
      is complete, the room takes writes and the first event of the key was this same write in the same context. */
  lemma RepeatedExactly(log: Log, key: Key, a: Action, line: string, v: View, i: nat)
    requires i < |log| && log[i].key == key && forall j :: 0 <= j < i ==> log[j].key != key
    ensures Written(log, key, a, line, v) == log
    ensures Refusal(log, key, a, v).None? <==>
      Complete(a) && v.writable && v.sameContext && !log[i].legacy && log[i].action.Some? && SameAction(log[i].action.value, a)
  {
    assert HasKey(log, key);
    assert SameWrite(log[i], a) <==> !log[i].legacy && log[i].action.Some? && SameAction(log[i].action.value, a);
    if Repeats(log, key, a) {
      var k :| 0 <= k < |log| && log[k].key == key && (forall j :: 0 <= j < k ==> log[j].key != key) && SameWrite(log[k], a);
      assert k == i;
    } else {
      assert !SameWrite(log[i], a);
    }
  }
}
