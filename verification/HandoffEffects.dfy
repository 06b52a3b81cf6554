/** What each turn of a handoff talk does to it, and which outcome the board gets for it. */
module HandoffEffects {
  import opened Basics
  import opened TaskBoard
  import opened Handoff

  // ---------------------------------------------------------------- one turn

  /** The receiver speaks first and then they take turns. */
  function SpeakerOf(t: Talk): Id
    requires t.Talking?
  {
    if t.turn % 2 == 0 then t.to else t.from
  }

  /** What the turn leaves: the words in the thread, and the talk. */
  ghost predicate TurnLeaves(w: World, next: World, said: Choice, talk: Talk)
    requires w.talk.Talking?
  {
    next == w.(side := w.side + [Turn(w.talk.offer, w.talk.thread, SpeakerOf(w.talk), said)], talk := talk)
  }

  /** A turn within the limit ends the talk in two cases: the receiver takes the card or turns it
      down, or the giver takes the offer back; whatever else is chosen continues the talk. */
  lemma TurnMeans(w: World, maxTurns: nat, choice: Choice)
    requires w.talk.Talking? && w.talk.turn < maxTurns
    ensures var t, next := w.talk, TurnTaken(w, maxTurns, Says(choice));
      if SpeakerOf(t) == t.to then
        match choice
        case AcceptIt => TurnLeaves(w, next, AcceptIt, Accepting(t.offer, t.to))
        case DeclineIt => TurnLeaves(w, next, DeclineIt, Ending(t.offer, t.to))
        case WithdrawIt => TurnLeaves(w, next, Discuss, t.(turn := t.turn + 1))
        case Discuss => TurnLeaves(w, next, Discuss, t.(turn := t.turn + 1))
      else
        match choice
        case AcceptIt => TurnLeaves(w, next, Discuss, t.(turn := t.turn + 1))
        case DeclineIt => TurnLeaves(w, next, Discuss, t.(turn := t.turn + 1))
        case WithdrawIt => TurnLeaves(w, next, WithdrawIt, Ending(t.offer, t.to))
        case Discuss => TurnLeaves(w, next, Discuss, t.(turn := t.turn + 1))
  {}

  /** Past the limit, or when the model fails, nobody decides and nothing is said; an answer the side
      room does not take stops the talk where it is. */
  lemma NoTurnMeans(w: World, maxTurns: nat, answer: Answer)
    requires w.talk.Talking?
    ensures w.talk.turn >= maxTurns || answer == Fails ==> TurnTaken(w, maxTurns, answer) == w.(talk := Escalating(w.talk.offer, w.talk.to))
    ensures w.talk.turn < maxTurns && answer == Unsaid ==> TurnTaken(w, maxTurns, answer) == w.(talk := Idle)
  {}

  /** A talk starts exactly when none runs, the card is not handed up and an offer is open on it: about
      that offer, with the one it is open to, in the room of their pair, after what was said there. The
      giver is the one named, else the holder, else AEEIS for a released card, else the owner. */
  lemma ResumeMeans(w: World, card: Card, fromId: Option<Id>, owner: Id)
    requires Sound(w.log)
    ensures var d, next := DecisionOf(w.log, card.conversationId, card.taskId), Resumed(w, card, fromId, owner);
      if w.talk.Idle? && !d.handedUp && d.offer.Some? then
        && next == w.(talk := next.talk) && next.talk.Talking?
        && IsOfferTo(w.log, next.talk.offer, card, next.talk.to) && next.talk.to == d.offer.value.agent
        && (forall m :: next.talk.offer < m < |w.log| ==> !Does(w.log, m, card.conversationId, card.taskId, Offer))
        && (next.talk.from == match fromId
            case Some(from) => from
            case None => match d.assignee
              case Some(holder) => holder
              case None => if d.released then AEEIS else owner)
        && next.talk.thread.pair == {next.talk.from, next.talk.to}
        && next.talk.thread.room == (if next.talk.thread.pair in w.rooms then w.rooms[next.talk.thread.pair] else 0)
        && next.talk.turn == |Said(w.side, next.talk.offer, next.talk.thread)|
      else next == w
  {
    if w.talk.Idle? && DecisionAt(w.log, card).offer.Some? {
      OpenOfferIsTheMark(w.log, card);
      MarkIsLast(w.log, card);
    }
  }

  // ---------------------------------------------------------------- the outcome on the board

  /** One event closed the offer, and it does this. */
  ghost predicate ClosedBy(w: World, next: World, card: Card, key: Key, kind: Kind) {
    && HasOffer(w.talk) && |next.log| == |w.log| + 1 && next.log[..|w.log|] == w.log && next.rooms == w.rooms
    && next.log[|w.log|].key == key && next.log[|w.log|].action.Some?
    && var a := next.log[|w.log|].action.value;
      a.kind == kind && a.conversationId == card.conversationId && a.taskId == card.taskId && a.agent == Some(w.talk.to)
  }

  lemma TransferGives(log: Log, next: Log, card: Card, to: Id)
    requires |next| == |log| + 1 && next[..|log|] == log && next[|log|].action == Some(Act(card, Transfer, Some(to)))
    ensures DecisionAt(next, card).assignee == Some(to) && DecisionAt(next, card).offer.None?
  {}

  lemma DeclineKeeps(log: Log, next: Log, card: Card, to: Id)
    requires |next| == |log| + 1 && next[..|log|] == log && next[|log|].action == Some(Act(card, Decline, Some(to)))
    ensures DecisionAt(next, card).assignee == DecisionAt(log, card).assignee && DecisionAt(next, card).offer.None?
  {}

  lemma RunOfTwoEvents(w: World, card: Card, maxTurns: nat, a: Handoff.Event, b: Handoff.Event)
    ensures RunAll(w, card, maxTurns, [a, b]) == NextWorld(NextWorld(w, card, maxTurns, a), card, maxTurns, b)
  {
    assert [a, b][..1] == [a] && [a][..0] == [];
    assert RunAll(w, card, maxTurns, [a]) == NextWorld(RunAll(w, card, maxTurns, [a][..0]), card, maxTurns, a);
  }

  /** The speaker's word decides: the receiver's decline and the giver's withdrawal end as a decline
      that leaves the card with its holder. */
  lemma RefusalEndsAsDecline(w: World, card: Card, maxTurns: nat, choice: Choice, v: View)
    requires Inv(w, card, maxTurns) && StillOpen(w, card) && !DecisionAt(w.log, card).handedUp
    requires w.talk.Talking? && w.talk.turn < maxTurns && Takes(v, w.talk.to)
    requires choice == if SpeakerOf(w.talk) == w.talk.to then DeclineIt else WithdrawIt
    ensures var next := RunAll(w, card, maxTurns, [Answered(Says(choice)), Recorded(v)]);
      && next.talk.Idle? && ClosedBy(w, next, card, EndKey(w.talk.offer), Decline)
      && DecisionAt(next.log, card).offer.None? && DecisionAt(next.log, card).assignee == DecisionAt(w.log, card).assignee
  {
    RunOfTwoEvents(w, card, maxTurns, Answered(Says(choice)), Recorded(v));
    TurnMeans(w, maxTurns, choice);
    var ending := NextWorld(w, card, maxTurns, Answered(Says(choice)));
    TurnKeepsInv(w, card, maxTurns, Says(choice));
    OutcomesTaken(ending, card, maxTurns, v);
    DeclineKeeps(w.log, NextWorld(ending, card, maxTurns, Recorded(v)).log, card, w.talk.to);
  }

  /** The receiver's acceptance transfers the card to it when it has time for it. */
  lemma AcceptanceTransfers(w: World, card: Card, maxTurns: nat, v: View)
    requires Inv(w, card, maxTurns) && StillOpen(w, card) && !DecisionAt(w.log, card).handedUp
    requires w.talk.Talking? && w.talk.turn < maxTurns && Receives(v, w.talk.to) && SpeakerOf(w.talk) == w.talk.to
    ensures var next := RunAll(w, card, maxTurns, [Answered(Says(AcceptIt)), Recorded(v)]);
      && next.talk.Idle? && ClosedBy(w, next, card, EndKey(w.talk.offer), Transfer)
      && DecisionAt(next.log, card).offer.None? && DecisionAt(next.log, card).assignee == Some(w.talk.to)
  {
    RunOfTwoEvents(w, card, maxTurns, Answered(Says(AcceptIt)), Recorded(v));
    TurnMeans(w, maxTurns, AcceptIt);
    var accepting := NextWorld(w, card, maxTurns, Answered(Says(AcceptIt)));
    TurnKeepsInv(w, card, maxTurns, Says(AcceptIt));
    OutcomesTaken(accepting, card, maxTurns, v);
    TransferGives(w.log, NextWorld(accepting, card, maxTurns, Recorded(v)).log, card, w.talk.to);
  }

  /** An acceptance the board does not take for want of time becomes a decline. */
  lemma AcceptanceWithoutTimeDeclines(w: World, card: Card, maxTurns: nat, v: View, u: View)
    requires Inv(w, card, maxTurns) && StillOpen(w, card) && !DecisionAt(w.log, card).handedUp
    requires w.talk.Accepting? && !Receives(v, w.talk.to) && Takes(u, w.talk.to)
    ensures var next := RunAll(w, card, maxTurns, [Recorded(v), Recorded(u)]);
      && next.talk.Idle? && ClosedBy(w, next, card, DeclinedKey(w.talk.offer), Decline)
      && DecisionAt(next.log, card).offer.None? && DecisionAt(next.log, card).assignee == DecisionAt(w.log, card).assignee
  {
    RunOfTwoEvents(w, card, maxTurns, Recorded(v), Recorded(u));
    OutcomesTaken(w, card, maxTurns, v);
    var refused := NextWorld(w, card, maxTurns, Recorded(v));
    RecordKeepsInv(w, card, maxTurns, v);
    OutcomesTaken(refused, card, maxTurns, u);
    DeclineKeeps(w.log, NextWorld(refused, card, maxTurns, Recorded(u)).log, card, w.talk.to);
  }

  lemma EscalationDeclines(w: World, card: Card, maxTurns: nat, v: View)
    requires Inv(w, card, maxTurns) && StillOpen(w, card) && !DecisionAt(w.log, card).handedUp && w.talk.Escalating? && Takes(v, w.talk.to)
    ensures var e := Closing(card, EndKey(w.talk.offer), Decline, w.talk.to);
      OutcomeRecorded(w, card, v) == w.(log := w.log + [e], talk := Blocking(w.talk.offer))
  {
    OutcomesTaken(w, card, maxTurns, v);
  }

  lemma BlockIsTaken(w: World, card: Card, o: nat, u: View)
    requires w.talk == Blocking(o) && !HasKey(w.log, BlockKey(o)) && u.writable && u.onBoard && !u.cardChanged
    requires !DecisionAt(w.log, card).handedUp
    ensures OutcomeRecorded(w, card, u) == w.(log := w.log + [BlockNote(card, o)], talk := Idle)
  {}

  lemma StillNotHandedUp(log: Log, card: Card, key: Key, to: Id)
    ensures DecisionAt(log + [Closing(card, key, Decline, to)], card).handedUp == DecisionAt(log, card).handedUp
  {
    assert (log + [Closing(card, key, Decline, to)])[..|log|] == log;
  }

  /** When nobody decides, the board gets a decline and a block. */
  lemma EscalationBlocks(w: World, card: Card, maxTurns: nat, v: View, u: View)
    requires Inv(w, card, maxTurns) && StillOpen(w, card) && !DecisionAt(w.log, card).handedUp
    requires w.talk.Escalating? && Takes(v, w.talk.to) && u.writable && u.onBoard && !u.cardChanged && !HasKey(w.log, BlockKey(w.talk.offer))
    ensures RunAll(w, card, maxTurns, [Recorded(v), Recorded(u)])
         == w.(log := w.log + [Closing(card, EndKey(w.talk.offer), Decline, w.talk.to), BlockNote(card, w.talk.offer)], talk := Idle)
  {
    var declined, note := Closing(card, EndKey(w.talk.offer), Decline, w.talk.to), BlockNote(card, w.talk.offer);
    RunOfTwoEvents(w, card, maxTurns, Recorded(v), Recorded(u));
    EscalationDeclines(w, card, maxTurns, v);
    StillNotHandedUp(w.log, card, EndKey(w.talk.offer), w.talk.to);
    BlockIsTaken(OutcomeRecorded(w, card, v), card, w.talk.offer, u);
    assert (w.log + [declined]) + [note] == w.log + [declined, note];
  }

  lemma BlockNoteBlocks(log: Log, card: Card, o: nat)
    ensures var d, next := DecisionAt(log, card), DecisionAt(log + [BlockNote(card, o)], card);
      next.blockedNote.Some? && next.offer == d.offer && next.assignee == d.assignee
  {
    assert (log + [BlockNote(card, o)])[..|log|] == log;
  }

  /** Which leaves the card blocked with its holder, and no offer open. */
  lemma DeclinedAndBlocked(log: Log, card: Card, o: nat, to: Id)
    ensures var d, next := DecisionAt(log, card), DecisionAt(log + [Closing(card, EndKey(o), Decline, to), BlockNote(card, o)], card);
      next.offer.None? && next.blockedNote.Some? && next.assignee == d.assignee
  {
    var declined, note := Closing(card, EndKey(o), Decline, to), BlockNote(card, o);
    assert log + [declined, note] == (log + [declined]) + [note];
    DeclineKeeps(log, log + [declined], card, to);
    BlockNoteBlocks(log + [declined], card, o);
  }
}
