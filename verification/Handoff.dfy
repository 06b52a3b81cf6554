/** Handoff talks of src/bot-team.ts: two Bots negotiate one open offer in a side thread, and a
    restart continues from what was said there. Board writes of anybody else come in between. */
module Handoff {
  import opened Basics
  import opened TaskBoard

  datatype Choice = AcceptIt | DeclineIt | WithdrawIt | Discuss

  /** Two Bots talk in the room found for their pair; another room is found once that one is
      archived or loses one of them. */
  datatype Thread = Thread(pair: set<Id>, room: nat)

  /** One message of a side thread; its key names the offer it is about. */
  datatype Turn = Turn(offer: nat, thread: Thread, speaker: Id, choice: Choice)

  /** A model answer, a failed or malformed one, or one the side room does not take. */
  datatype Answer = Says(choice: Choice) | Fails | Unsaid

  /** Where the one running talk about the card stands. */
  datatype Talk =
    | Idle
    | Talking(offer: nat, from: Id, to: Id, thread: Thread, turn: nat)
    | Accepting(offer: nat, to: Id)
    | NotTransferred(offer: nat, to: Id)
    | Ending(offer: nat, to: Id)
    | Escalating(offer: nat, to: Id)
    | Blocking(offer: nat)

  datatype Card = Card(conversationId: Id, taskId: Id)

  /** `side` holds the messages of all side threads in order, `rooms` the room a pair talks in. */
  datatype World = World(log: Log, side: seq<Turn>, rooms: map<set<Id>, nat>, talk: Talk)

  const NOTHING := World([], [], map[], Idle)

  datatype Event =
    | Resume(fromId: Option<Id>, owner: Id)
    | Answered(answer: Answer)
    | Recorded(v: View)
    | Crash
    | Board(step: Step)
    | Rehoused(pair: set<Id>, room: nat)

  /** What was said about the offer in one thread. */
  function Said(side: seq<Turn>, offer: nat, thread: Thread): seq<Turn> {
    if side == [] then []
    else
      var before, t := Said(side[..|side| - 1], offer, thread), side[|side| - 1];
      if t.offer == offer && t.thread == thread then before + [t] else before
  }

  /** What was said about the offer in any thread. */
  function About(side: seq<Turn>, offer: nat): seq<Turn> {
    if side == [] then []
    else
      var before, t := About(side[..|side| - 1], offer), side[|side| - 1];
      if t.offer == offer then before + [t] else before
  }

  /** The last offer event of the card. */
  function OfferMark(log: Log, card: Card): Option<nat> {
    if log == [] then None
    else if Does(log, |log| - 1, card.conversationId, card.taskId, Offer) then Some(|log| - 1)
    else OfferMark(log[..|log| - 1], card)
  }

  function DecisionAt(log: Log, card: Card): Decision { DecisionOf(log, card.conversationId, card.taskId) }

  function Act(card: Card, kind: Kind, agent: Option<Id>): Action {
    Action(kind, card.conversationId, card.taskId, agent, if kind.Transfer? then None else Some("handoff"), None)
  }

  /** Only the receiver can accept or decline and only the giver can withdraw; any other choice
      goes on with the talk. */
  function Effective(choice: Choice, receiver: bool): Choice {
    if receiver then (if choice.WithdrawIt? then Discuss else choice)
    else if choice.WithdrawIt? then WithdrawIt else Discuss
  }

  function AfterTurn(t: Talk, choice: Choice): Talk
    requires t.Talking?
  {
    match choice
    case AcceptIt => Accepting(t.offer, t.to)
    case DeclineIt => Ending(t.offer, t.to)
    case WithdrawIt => Ending(t.offer, t.to)
    case Discuss => t.(turn := t.turn + 1)
  }

  /** The one who hands over: named by the caller, else whoever holds the card now. */
  function Giver(d: Decision, fromId: Option<Id>, owner: Id): Id {
    if fromId.Some? then fromId.value else if d.assignee.Some? then d.assignee.value else if d.released then AEEIS else owner
  }

  function ThreadOf(w: World, pair: set<Id>): Thread { Thread(pair, if pair in w.rooms then w.rooms[pair] else 0) }

  function Resumed(w: World, card: Card, fromId: Option<Id>, owner: Id): World {
    var d, mark := DecisionAt(w.log, card), OfferMark(w.log, card);
    if !w.talk.Idle? || d.handedUp || d.offer.None? || mark.None? then w
    else
      var from, to := Giver(d, fromId, owner), d.offer.value.agent;
      var thread := ThreadOf(w, {from, to});
      w.(talk := Talking(mark.value, from, to, thread, |Said(w.side, mark.value, thread)|))
  }

  function TurnTaken(w: World, maxTurns: nat, answer: Answer): World
    requires w.talk.Talking?
  {
    var t := w.talk;
    if t.turn >= maxTurns || answer.Fails? then w.(talk := Escalating(t.offer, t.to))
    else if answer.Unsaid? then w.(talk := Idle)
    else
      var speaker := if t.turn % 2 == 0 then t.to else t.from;
      var choice := Effective(answer.choice, speaker == t.to);
      w.(side := w.side + [Turn(t.offer, t.thread, speaker, choice)], talk := AfterTurn(t, choice))
  }

  /** The next board write of the talk. A refused transfer becomes a decline; a refused decline
      leaves the offer open, after an escalation with its block all the same. */
  function OutcomeRecorded(w: World, card: Card, v: View): World {
    match w.talk
    case Accepting(o, to) =>
      if Refusal(w.log, EndKey(o), Act(card, Transfer, Some(to)), v).Some? then w.(talk := NotTransferred(o, to))
      else w.(log := Written(w.log, EndKey(o), Act(card, Transfer, Some(to)), "transfer", v), talk := Idle)
    case NotTransferred(o, to) => w.(log := Written(w.log, DeclinedKey(o), Act(card, Decline, Some(to)), "decline", v), talk := Idle)
    case Ending(o, to) => w.(log := Written(w.log, EndKey(o), Act(card, Decline, Some(to)), "decline", v), talk := Idle)
    case Escalating(o, to) => w.(log := Written(w.log, EndKey(o), Act(card, Decline, Some(to)), "decline", v), talk := Blocking(o))
    case Blocking(o) => w.(log := Written(w.log, BlockKey(o), Act(card, Block, None), "block", v), talk := Idle)
    case _ => w
  }

  predicate FromClient(s: Step) { s.key.ClientKey? }

  function NextWorld(w: World, card: Card, maxTurns: nat, e: Event): World {
    match e
    case Resume(fromId, owner) => Resumed(w, card, fromId, owner)
    case Answered(answer) => if w.talk.Talking? then TurnTaken(w, maxTurns, answer) else w
    case Recorded(v) => OutcomeRecorded(w, card, v)
    case Crash => w.(talk := Idle)
    case Board(step) => if FromClient(step) then w.(log := Next(w.log, step)) else w
    case Rehoused(pair, room) => w.(rooms := w.rooms[pair := room])
  }

  function RunAll(w: World, card: Card, maxTurns: nat, events: seq<Event>): World {
    if events == [] then w else NextWorld(RunAll(w, card, maxTurns, events[..|events| - 1]), card, maxTurns, events[|events| - 1])
  }

  // ---------------------------------------------------------------- invariant

  predicate IsOfferTo(log: Log, o: nat, card: Card, to: Id) {
    Does(log, o, card.conversationId, card.taskId, Offer) && log[o].action.value.agent == Some(to)
  }

  predicate Closes(log: Log, m: nat, card: Card) { ClosesOffer(log, m, card.conversationId, card.taskId) }

  predicate HasOffer(t: Talk) { !t.Idle? && !t.Blocking? }

  predicate Ends(key: Key, o: nat) { key == EndKey(o) || key == DeclinedKey(o) }

  predicate Ended(log: Log, o: nat) { exists m :: 0 <= m < |log| && Ends(log[m].key, o) }

  /** The running talk is about a real offer to its receiver, which no earlier talk has ended. */
  predicate TalkInv(w: World, card: Card) {
    && (HasOffer(w.talk) ==> IsOfferTo(w.log, w.talk.offer, card, w.talk.to) && !Ended(w.log, w.talk.offer))
    && (w.talk.Talking? ==>
          w.talk.thread.pair == {w.talk.from, w.talk.to} && w.talk.turn == |Said(w.side, w.talk.offer, w.talk.thread)|)
    && (w.talk.Accepting? ==> LastAccepted(w.side, w.talk.offer, w.talk.to))
  }

  predicate LastAccepted(side: seq<Turn>, o: nat, to: Id) {
    var said := About(side, o);
    said != [] && said[|said| - 1].speaker == to && said[|said| - 1].choice.AcceptIt?
  }

  /** The receiver and the other one of the pair take turns, the receiver first. */
  predicate TurnFits(log: Log, card: Card, o: nat, pair: set<Id>, k: nat, t: Turn) {
    && Does(log, o, card.conversationId, card.taskId, Offer) && log[o].action.value.agent.Some?
    && var to := log[o].action.value.agent.value; to in pair && (if k % 2 == 0 then t.speaker == to else pair == {to, t.speaker})
  }

  predicate SideInv(w: World, card: Card, maxTurns: nat, o: nat, thread: Thread) {
    && |Said(w.side, o, thread)| <= maxTurns
    && (forall k :: 0 <= k < |Said(w.side, o, thread)| ==> TurnFits(w.log, card, o, thread.pair, k, Said(w.side, o, thread)[k]))
  }

  /** An event that ended offer o came after it and closed an offer, and if it is a transfer then
      the receiver's acceptance is the last thing said about o. */
  predicate EndInv(w: World, card: Card, m: nat)
    requires m < |w.log|
  {
    w.log[m].key.EndKey? || w.log[m].key.DeclinedKey? ==>
      var o := w.log[m].key.offer;
      && o < m && Closes(w.log, m, card)
      && (w.log[m].action.value.kind.Transfer? ==>
            && w.log[m].action.value.agent.Some? && LastAccepted(w.side, o, w.log[m].action.value.agent.value)
            && IsOfferTo(w.log, o, card, w.log[m].action.value.agent.value))
  }

  ghost predicate Inv(w: World, card: Card, maxTurns: nat) {
    && Sound(w.log) && TalkInv(w, card)
    && (forall o, thread :: SideInv(w, card, maxTurns, o, thread))
    && (forall m :: 0 <= m < |w.log| ==> EndInv(w, card, m))
  }

  lemma {:induction false} MarkIsLast(log: Log, card: Card)
    ensures OfferMark(log, card).Some? ==>
      var i := OfferMark(log, card).value;
      Does(log, i, card.conversationId, card.taskId, Offer) && forall m :: i < m < |log| ==> !Does(log, m, card.conversationId, card.taskId, Offer)
    ensures OfferMark(log, card).None? ==> forall m :: 0 <= m < |log| ==> !Does(log, m, card.conversationId, card.taskId, Offer)
  {
    if log != [] && !Does(log, |log| - 1, card.conversationId, card.taskId, Offer) {
      var front := log[..|log| - 1];
      MarkIsLast(front, card);
      assert forall m :: 0 <= m < |front| ==> (Does(front, m, card.conversationId, card.taskId, Offer) <==> Does(log, m, card.conversationId, card.taskId, Offer));
    }
  }

  /** An open offer is the last offer event, made to the one it is open to, and nothing closed it since. */
  lemma OpenOfferIsTheMark(log: Log, card: Card)
    requires Sound(log) && DecisionAt(log, card).offer.Some?
    ensures OfferMark(log, card).Some? && IsOfferTo(log, OfferMark(log, card).value, card, DecisionAt(log, card).offer.value.agent)
    ensures forall m :: OfferMark(log, card).value < m < |log| ==> !Closes(log, m, card)
  {
    assert log[..|log|] == log;
    var i := OpenOfferHasItsMark(log, |log|, card.conversationId, card.taskId);
    MarkIsLast(log, card);
  }

  lemma SayingAdds(side: seq<Turn>, t: Turn, o: nat, thread: Thread)
    ensures Said(side + [t], o, thread) == if t.offer == o && t.thread == thread then Said(side, o, thread) + [t] else Said(side, o, thread)
    ensures About(side + [t], o) == if t.offer == o then About(side, o) + [t] else About(side, o)
  {
    assert (side + [t])[..|side|] == side;
  }

  lemma ResumeKeepsInv(w: World, card: Card, maxTurns: nat, fromId: Option<Id>, owner: Id)
    requires Inv(w, card, maxTurns)
    ensures Inv(Resumed(w, card, fromId, owner), card, maxTurns)
  {
    var next := Resumed(w, card, fromId, owner);
    if next != w {
      OpenOfferIsTheMark(w.log, card);
      forall m | 0 <= m < |w.log| ensures !Ends(w.log[m].key, next.talk.offer) { assert EndInv(w, card, m); }
      TalkMoves(w, card, maxTurns, next);
    }
  }

  lemma TalkMoves(w: World, card: Card, maxTurns: nat, next: World)
    requires Inv(w, card, maxTurns) && next.log == w.log && next.side == w.side && TalkInv(next, card)
    ensures Inv(next, card, maxTurns)
  {
    forall x, th ensures SideInv(next, card, maxTurns, x, th) { assert SideInv(w, card, maxTurns, x, th); }
    forall m | 0 <= m < |w.log| ensures EndInv(next, card, m) { assert EndInv(w, card, m); }
  }

  /** What a turn said of the running talk adds to the threads. */
  lemma TurnKeepsSide(w: World, card: Card, maxTurns: nat, t: Turn, next: World, x: nat, th: Thread)
    requires SideInv(w, card, maxTurns, x, th) && TalkInv(w, card) && w.talk.Talking? && w.talk.turn < maxTurns
    requires next.log == w.log && next.side == w.side + [t] && t.offer == w.talk.offer && t.thread == w.talk.thread
    requires t.speaker == if w.talk.turn % 2 == 0 then w.talk.to else w.talk.from
    ensures SideInv(next, card, maxTurns, x, th)
  {
    SayingAdds(w.side, t, x, th);
    if x == t.offer && th == t.thread {
      var k := |Said(w.side, x, th)|;
      assert TurnFits(w.log, card, x, th.pair, k, t);
    }
  }

  lemma TurnKeepsEnd(w: World, card: Card, maxTurns: nat, t: Turn, next: World, m: nat)
    requires m < |w.log| && EndInv(w, card, m) && TalkInv(w, card) && w.talk.Talking?
    requires next.log == w.log && next.side == w.side + [t] && t.offer == w.talk.offer
    ensures EndInv(next, card, m)
  {
    assert !Ends(w.log[m].key, t.offer);
    if w.log[m].key.EndKey? || w.log[m].key.DeclinedKey? { SayingAdds(w.side, t, w.log[m].key.offer, t.thread); }
  }

  lemma TurnKeepsInv(w: World, card: Card, maxTurns: nat, answer: Answer)
    requires Inv(w, card, maxTurns) && w.talk.Talking?
    ensures Inv(TurnTaken(w, maxTurns, answer), card, maxTurns)
  {
    var next := TurnTaken(w, maxTurns, answer);
    if next.side == w.side {
      TalkMoves(w, card, maxTurns, next);
    } else {
      var t := next.side[|w.side|];
      assert next.side == w.side + [t];
      SayingAdds(w.side, t, w.talk.offer, w.talk.thread);
      forall x, th ensures SideInv(next, card, maxTurns, x, th) {
        assert SideInv(w, card, maxTurns, x, th);
        TurnKeepsSide(w, card, maxTurns, t, next, x, th);
      }
      forall m | 0 <= m < |w.log| ensures EndInv(next, card, m) {
        assert EndInv(w, card, m);
        TurnKeepsEnd(w, card, maxTurns, t, next, m);
      }
    }
  }

  /** An appended event keeps what is said about the earlier ones. */
  lemma AppendedKeepsEnds(w: World, card: Card, maxTurns: nat, e: TaskBoard.Event, next: World)
    requires Inv(w, card, maxTurns) && next.log == w.log + [e] && next.side == w.side
    ensures forall o, th :: SideInv(next, card, maxTurns, o, th)
    ensures forall m :: 0 <= m < |w.log| ==> EndInv(next, card, m)
    ensures forall o, to :: IsOfferTo(w.log, o, card, to) ==> IsOfferTo(next.log, o, card, to)
  {
    forall o: nat, to | IsOfferTo(w.log, o, card, to) ensures IsOfferTo(next.log, o, card, to) { assert next.log[o] == w.log[o]; }
    forall o, th ensures SideInv(next, card, maxTurns, o, th) { assert SideInv(w, card, maxTurns, o, th); }
    forall m | 0 <= m < |w.log| ensures EndInv(next, card, m) {
      assert EndInv(w, card, m) && next.log[m] == w.log[m];
    }
  }

  lemma WritingKeepsInv(w: World, card: Card, maxTurns: nat, key: Key, a: Action, line: string, v: View, next: World)
    requires Inv(w, card, maxTurns) && !a.kind.HandUp? && !a.kind.Control?
    requires next.log == Written(w.log, key, a, line, v) && next.side == w.side && TalkInv(next, card)
    requires key.EndKey? || key.DeclinedKey? ==>
      && key.offer < |w.log| && a.conversationId == card.conversationId && a.taskId == card.taskId
      && (a.kind.Transfer? || a.kind.Decline?)
      && (a.kind.Transfer? ==> a.agent.Some? && LastAccepted(w.side, key.offer, a.agent.value) && IsOfferTo(w.log, key.offer, card, a.agent.value))
    ensures Inv(next, card, maxTurns)
  {
    if next.log != w.log {
      var e := TaskBoard.Event(key, Some(a), line, false);
      AppendKeepsSound(w.log, e);
      AppendedKeepsEnds(w, card, maxTurns, e, next);
      assert next.log[|w.log|] == e;
    } else {
      TalkMoves(w, card, maxTurns, next);
    }
  }

  lemma RecordKeepsInv(w: World, card: Card, maxTurns: nat, v: View)
    requires Inv(w, card, maxTurns)
    ensures Inv(OutcomeRecorded(w, card, v), card, maxTurns)
  {
    var next := OutcomeRecorded(w, card, v);
    match w.talk
    case Accepting(o, to) =>
      if next.talk.Idle? { WritingKeepsInv(w, card, maxTurns, EndKey(o), Act(card, Transfer, Some(to)), "transfer", v, next); }
      else { TalkMoves(w, card, maxTurns, next); }
    case NotTransferred(o, to) => WritingKeepsInv(w, card, maxTurns, DeclinedKey(o), Act(card, Decline, Some(to)), "decline", v, next);
    case Ending(o, to) => WritingKeepsInv(w, card, maxTurns, EndKey(o), Act(card, Decline, Some(to)), "decline", v, next);
    case Escalating(o, to) => WritingKeepsInv(w, card, maxTurns, EndKey(o), Act(card, Decline, Some(to)), "decline", v, next);
    case Blocking(o) => WritingKeepsInv(w, card, maxTurns, BlockKey(o), Act(card, Block, None), "block", v, next);
    case _ =>
  }

  lemma BoardKeepsInv(w: World, card: Card, maxTurns: nat, s: Step)
    requires Inv(w, card, maxTurns) && FromClient(s)
    ensures Inv(w.(log := Next(w.log, s)), card, maxTurns)
  {
    var next := w.(log := Next(w.log, s));
    StepKeepsSound(w.log, s);
    if next.log != w.log {
      var e := next.log[|w.log|];
      assert next.log == w.log + [e] && e.key.ClientKey?;
      AppendedKeepsEnds(w, card, maxTurns, e, next);
      if HasOffer(w.talk) { assert !Ended(next.log, w.talk.offer); }
    }
  }

  lemma StepKeepsInv(w: World, card: Card, maxTurns: nat, e: Event)
    requires Inv(w, card, maxTurns)
    ensures Inv(NextWorld(w, card, maxTurns, e), card, maxTurns)
  {
    match e
    case Resume(fromId, owner) => ResumeKeepsInv(w, card, maxTurns, fromId, owner);
    case Answered(answer) => if w.talk.Talking? { TurnKeepsInv(w, card, maxTurns, answer); }
    case Recorded(v) => RecordKeepsInv(w, card, maxTurns, v);
    case Crash => TalkMoves(w, card, maxTurns, w.(talk := Idle));
    case Board(step) => if FromClient(step) { BoardKeepsInv(w, card, maxTurns, step); }
    case Rehoused(pair, room) => TalkMoves(w, card, maxTurns, w.(rooms := w.rooms[pair := room]));
  }

  lemma {:induction false} RunKeepsInv(w: World, card: Card, maxTurns: nat, events: seq<Event>)
    requires Inv(w, card, maxTurns)
    ensures Inv(RunAll(w, card, maxTurns, events), card, maxTurns)
  {
    if events != [] {
      RunKeepsInv(w, card, maxTurns, events[..|events| - 1]);
      StepKeepsInv(RunAll(w, card, maxTurns, events[..|events| - 1]), card, maxTurns, events[|events| - 1]);
    }
  }

  // ---------------------------------------------------------------- how long a talk is

  /** Across any crashes and resumes two Bots say at most maxTurns things about an offer in their
      thread, the receiver first and then in turns; and a handoff transfers the card only to the
      one it was offered to, whose acceptance is the last thing ever said about the offer anywhere. */
  lemma HandoffsAreBounded(card: Card, maxTurns: nat, events: seq<Event>, o: nat, thread: Thread, m: nat)
    ensures var w := RunAll(NOTHING, card, maxTurns, events);
      && |Said(w.side, o, thread)| <= maxTurns
      && (forall k :: 0 <= k < |Said(w.side, o, thread)| ==> TurnFits(w.log, card, o, thread.pair, k, Said(w.side, o, thread)[k]))
      && (m < |w.log| && w.log[m].key == EndKey(o) && Does(w.log, m, card.conversationId, card.taskId, Transfer) ==>
            && o < m && w.log[m].action.value.agent.Some?
            && IsOfferTo(w.log, o, card, w.log[m].action.value.agent.value)
            && LastAccepted(w.side, o, w.log[m].action.value.agent.value))
  {
    RunKeepsInv(NOTHING, card, maxTurns, events);
    var w := RunAll(NOTHING, card, maxTurns, events);
    assert SideInv(w, card, maxTurns, o, thread);
    if m < |w.log| { assert EndInv(w, card, m); }
  }

  /** Whenever the run talks about the offer it does so in this thread: every resume found the
      same giver and the same side room. */
  ghost predicate OneThread(card: Card, maxTurns: nat, events: seq<Event>, o: nat, thread: Thread) {
    var w := RunAll(NOTHING, card, maxTurns, events);
    && (w.talk.Talking? && w.talk.offer == o ==> w.talk.thread == thread)
    && (events != [] ==> OneThread(card, maxTurns, events[..|events| - 1], o, thread))
  }

  lemma {:induction false} OneThreadSaysAll(card: Card, maxTurns: nat, events: seq<Event>, o: nat, thread: Thread)
    requires OneThread(card, maxTurns, events, o, thread)
    ensures var w := RunAll(NOTHING, card, maxTurns, events); About(w.side, o) == Said(w.side, o, thread)
  {
    if events != [] {
      var front, e := events[..|events| - 1], events[|events| - 1];
      OneThreadSaysAll(card, maxTurns, front, o, thread);
      var before, after := RunAll(NOTHING, card, maxTurns, front), RunAll(NOTHING, card, maxTurns, events);
      if after.side != before.side { SayingAdds(before.side, after.side[|before.side|], o, thread); }
    }
  }

  /** With the same giver and side room at every resume, the whole offer takes at most maxTurns turns. */
  lemma OneThreadBoundsTheOffer(card: Card, maxTurns: nat, events: seq<Event>, o: nat, thread: Thread)
    requires OneThread(card, maxTurns, events, o, thread)
    ensures |About(RunAll(NOTHING, card, maxTurns, events).side, o)| <= maxTurns
  {
    OneThreadSaysAll(card, maxTurns, events, o, thread);
    HandoffsAreBounded(card, maxTurns, events, o, thread, 0);
  }

  predicate OnlyTalk(events: seq<Event>) { forall i :: 0 <= i < |events| ==> events[i].Answered? || events[i].Recorded? }

  /** All that was said about the offer was said in the thread, and the talk is there. */
  predicate StaysIn(w: World, o: nat, thread: Thread) {
    About(w.side, o) == Said(w.side, o, thread) && (w.talk.Talking? ==> w.talk.offer == o && w.talk.thread == thread)
  }

  lemma StaysInStep(w: World, card: Card, maxTurns: nat, o: nat, thread: Thread, e: Event)
    requires StaysIn(w, o, thread) && (e.Answered? || e.Recorded?)
    ensures StaysIn(NextWorld(w, card, maxTurns, e), o, thread)
  {
    var next := NextWorld(w, card, maxTurns, e);
    if e.Answered? && next.side != w.side { SayingAdds(w.side, next.side[|w.side|], o, thread); }
  }

  lemma {:induction false} TalkStays(w: World, card: Card, maxTurns: nat, events: seq<Event>, o: nat, thread: Thread)
    requires StaysIn(w, o, thread) && OnlyTalk(events)
    ensures StaysIn(RunAll(w, card, maxTurns, events), o, thread)
  {
    if events != [] {
      var n := |events| - 1;
      assert forall i :: 0 <= i < n ==> events[..n][i] == events[i];
      TalkStays(w, card, maxTurns, events[..n], o, thread);
      assert events[n].Answered? || events[n].Recorded?;
      StaysInStep(RunAll(w, card, maxTurns, events[..n]), card, maxTurns, o, thread, events[n]);
    }
  }

  function Discussions(n: nat): seq<Event> { seq(n, _ => Answered(Says(Discuss))) }

  lemma {:induction false} DiscussionGoesOn(w: World, card: Card, maxTurns: nat, n: nat)
    requires w.talk.Talking? && w.talk.turn + n <= maxTurns
    ensures var next := RunAll(w, card, maxTurns, Discussions(n));
      && next.log == w.log && next.rooms == w.rooms && next.talk == w.talk.(turn := w.talk.turn + n)
      && |About(next.side, w.talk.offer)| == |About(w.side, w.talk.offer)| + n
      && (forall o, th :: th != w.talk.thread ==> Said(next.side, o, th) == Said(w.side, o, th))
  {
    if n > 0 {
      DiscussionGoesOn(w, card, maxTurns, n - 1);
      assert Discussions(n)[..n - 1] == Discussions(n - 1);
      var before, after := RunAll(w, card, maxTurns, Discussions(n - 1)), RunAll(w, card, maxTurns, Discussions(n));
      var t := after.side[|before.side|];
      assert after.side == before.side + [t];
      forall o, th | th != w.talk.thread ensures Said(after.side, o, th) == Said(w.side, o, th) { SayingAdds(before.side, t, o, th); }
      SayingAdds(before.side, t, w.talk.offer, w.talk.thread);
    }
  }

  lemma {:induction false} SaidIsAbout(side: seq<Turn>, o: nat, thread: Thread)
    ensures |Said(side, o, thread)| <= |About(side, o)|
    ensures |Said(side, o, thread)| == |About(side, o)| ==> Said(side, o, thread) == About(side, o)
  {
    if side != [] { SaidIsAbout(side[..|side| - 1], o, thread); }
  }

  /** A talk under way keeps the whole offer within maxTurns turns, however it goes on, if and only
      if nothing was said about the offer in another thread. */
  lemma OfferIsBoundedIff(w: World, card: Card, maxTurns: nat)
    requires Inv(w, card, maxTurns) && w.talk.Talking?
    ensures (forall events :: OnlyTalk(events) ==> |About(RunAll(w, card, maxTurns, events).side, w.talk.offer)| <= maxTurns)
      <==> |About(w.side, w.talk.offer)| == |Said(w.side, w.talk.offer, w.talk.thread)|
  {
    var o, thread := w.talk.offer, w.talk.thread;
    assert SideInv(w, card, maxTurns, o, thread);
    SaidIsAbout(w.side, o, thread);
    if |About(w.side, o)| == |Said(w.side, o, thread)| {
      forall events | OnlyTalk(events) ensures |About(RunAll(w, card, maxTurns, events).side, o)| <= maxTurns {
        TalkStays(w, card, maxTurns, events, o, thread);
        RunKeepsInv(w, card, maxTurns, events);
        assert SideInv(RunAll(w, card, maxTurns, events), card, maxTurns, o, thread);
      }
    } else {
      var rest := Discussions(maxTurns - w.talk.turn);
      DiscussionGoesOn(w, card, maxTurns, maxTurns - w.talk.turn);
      assert OnlyTalk(rest) && |About(RunAll(w, card, maxTurns, rest).side, o)| > maxTurns;
    }
  }

  lemma {:induction false} RunsJoin(w: World, card: Card, maxTurns: nat, first: seq<Event>, rest: seq<Event>)
    ensures RunAll(w, card, maxTurns, first + rest) == RunAll(RunAll(w, card, maxTurns, first), card, maxTurns, rest)
  {
    if rest == [] {
      assert first + rest == first;
    } else {
      RunsJoin(w, card, maxTurns, first, rest[..|rest| - 1]);
      assert (first + rest)[..|first + rest| - 1] == first + rest[..|rest| - 1];
    }
  }

  lemma RunOfThree(w: World, card: Card, maxTurns: nat, a: Event, b: Event, c: Event)
    ensures RunAll(w, card, maxTurns, [a, b, c]) ==
      NextWorld(NextWorld(NextWorld(w, card, maxTurns, a), card, maxTurns, b), card, maxTurns, c)
  {
    assert RunAll(w, card, maxTurns, [a]) == NextWorld(RunAll(w, card, maxTurns, [a][..0]), card, maxTurns, a);
    assert [a, b][..1] == [a] && [a, b, c][..2] == [a, b];
    assert RunAll(w, card, maxTurns, [a, b]) == NextWorld(RunAll(w, card, maxTurns, [a]), card, maxTurns, b);
  }

  /** The offer the talk is about is still the one open on the card. */
  predicate StillOpen(w: World, card: Card) {
    HasOffer(w.talk) && DecisionAt(w.log, card).offer.Some? && OfferMark(w.log, card) == Some(w.talk.offer)
  }

  /** An archived side room makes a talk start over, and then nothing bounds the whole offer. */
  lemma ArchivedRoomStartsOver(w: World, card: Card, maxTurns: nat, room: nat, owner: Id)
    requires Inv(w, card, maxTurns) && w.talk.Talking? && w.talk.turn > 0 && StillOpen(w, card) && !DecisionAt(w.log, card).handedUp
    requires Said(w.side, w.talk.offer, Thread(w.talk.thread.pair, room)) == []
    ensures var next := RunAll(w, card, maxTurns, [Crash, Rehoused(w.talk.thread.pair, room), Resume(Some(w.talk.from), owner)]);
      && next.talk == Talking(w.talk.offer, w.talk.from, w.talk.to, Thread(w.talk.thread.pair, room), 0)
      && exists events :: OnlyTalk(events) && |About(RunAll(next, card, maxTurns, events).side, w.talk.offer)| > maxTurns
  {
    var pair := w.talk.thread.pair;
    var resume := Resume(Some(w.talk.from), owner);
    RunOfThree(w, card, maxTurns, Crash, Rehoused(pair, room), resume);
    var next := RunAll(w, card, maxTurns, [Crash, Rehoused(pair, room), resume]);
    OpenOfferIsTheMark(w.log, card);
    RunKeepsInv(w, card, maxTurns, [Crash, Rehoused(pair, room), resume]);
    SaidIsAbout(w.side, w.talk.offer, w.talk.thread);
    OfferIsBoundedIff(next, card, maxTurns);
  }

  function Posts(card: Card, key: string, kind: Kind, agent: Option<Id>, v: View): Event {
    Board(WriteStep(ClientKey(key), Act(card, kind, agent), "", v))
  }

  lemma BoardWrites(w: World, card: Card, maxTurns: nat, key: string, kind: Kind, agent: Option<Id>, v: View)
    requires !kind.HandUp? && !kind.Control? && !HasKey(w.log, ClientKey(key))
    requires Refusal(w.log, ClientKey(key), Act(card, kind, agent), v).None?
    ensures var next := NextWorld(w, card, maxTurns, Posts(card, key, kind, agent, v));
      && next == w.(log := w.log + [TaskBoard.Event(ClientKey(key), Some(Act(card, kind, agent)), "", false)])
      && DecisionAt(next.log, card) == Applied(DecisionAt(w.log, card), Act(card, kind, agent), "")
      && OfferMark(next.log, card) == if kind.Offer? then Some(|w.log|) else OfferMark(w.log, card)
  {
    var e := TaskBoard.Event(ClientKey(key), Some(Act(card, kind, agent)), "", false);
    assert (w.log + [e])[..|w.log|] == w.log;
  }

  /** Everyone is in the channel with time on their hands, and the card is on its board. */
  predicate Quiet(v: View, agents: set<Id>) {
    agents <= v.members && v.writable && v.onBoard && !v.cardChanged && v.load < WIP_LIMIT && v.loadNow < WIP_LIMIT
  }

  function Opening(card: Card, a: Id, b: Id, owner: Id, v: View): seq<Event> {
    [Posts(card, "assign", Assign, Some(a), v), Posts(card, "offer", Offer, Some(b), v), Resume(None, owner)]
  }

  function Takeover(card: Card, c: Id, owner: Id, v: View): seq<Event> {
    [Posts(card, "release", Release, None, v), Posts(card, "claim", Claim, Some(c), v), Resume(None, owner)]
  }

  lemma AssignedThenOffered(card: Card, a: Id, b: Id)
    requires a != b
    ensures var held := Applied(EmptyDecision(), Act(card, Assign, Some(a)), "");
      && CheckAction(Act(card, Assign, Some(a)), EmptyDecision()).None? && CheckAction(Act(card, Offer, Some(b)), held).None?
      && var offered := Applied(held, Act(card, Offer, Some(b)), "");
        offered.offer == Some(OpenOffer(b, Some("handoff"))) && offered.assignee == Some(a) && !offered.handedUp
  {}

  lemma OpeningTalks(card: Card, maxTurns: nat, a: Id, b: Id, owner: Id, v: View)
    requires Quiet(v, {a, b}) && a != b
    ensures var w := RunAll(NOTHING, card, maxTurns, Opening(card, a, b, owner, v));
      && w.side == [] && w.rooms == map[] && w.talk == Talking(1, a, b, Thread({a, b}, 0), 0) && OfferMark(w.log, card) == Some(1)
      && !HasKey(w.log, ClientKey("release")) && !HasKey(w.log, ClientKey("claim"))
      && DecisionAt(w.log, card).offer == Some(OpenOffer(b, Some("handoff"))) && !DecisionAt(w.log, card).handedUp
  {
    var s := Opening(card, a, b, owner, v);
    RunOfThree(NOTHING, card, maxTurns, s[0], s[1], s[2]);
    AssignedThenOffered(card, a, b);
    BoardWrites(NOTHING, card, maxTurns, "assign", Assign, Some(a), v);
    var one := NextWorld(NOTHING, card, maxTurns, s[0]);
    BoardWrites(one, card, maxTurns, "offer", Offer, Some(b), v);
  }

  lemma ReleasedThenClaimed(d: Decision, card: Card, c: Id)
    requires !d.handedUp
    ensures var free := Applied(d, Act(card, Release, None), "");
      && CheckAction(Act(card, Release, None), d).None? && CheckAction(Act(card, Claim, Some(c)), free).None?
      && var held := Applied(free, Act(card, Claim, Some(c)), "");
        held.offer == d.offer && held.assignee == Some(c) && !held.handedUp
  {}

  lemma TakeoverPosts(w: World, card: Card, maxTurns: nat, c: Id, v: View)
    requires Quiet(v, {c}) && !HasKey(w.log, ClientKey("release")) && !HasKey(w.log, ClientKey("claim"))
    requires !DecisionAt(w.log, card).handedUp
    ensures var next := NextWorld(NextWorld(w, card, maxTurns, Posts(card, "release", Release, None, v)), card, maxTurns, Posts(card, "claim", Claim, Some(c), v));
      && next == w.(log := next.log) && OfferMark(next.log, card) == OfferMark(w.log, card)
      && DecisionAt(next.log, card).offer == DecisionAt(w.log, card).offer
      && DecisionAt(next.log, card).assignee == Some(c) && !DecisionAt(next.log, card).handedUp
  {
    ReleasedThenClaimed(DecisionAt(w.log, card), card, c);
    BoardWrites(w, card, maxTurns, "release", Release, None, v);
    BoardWrites(NextWorld(w, card, maxTurns, Posts(card, "release", Release, None, v)), card, maxTurns, "claim", Claim, Some(c), v);
  }

  lemma TakeoverStartsOver(w: World, card: Card, maxTurns: nat, b: Id, c: Id, owner: Id, v: View)
    requires Quiet(v, {c}) && w.talk.Idle? && w.rooms == map[] && OfferMark(w.log, card) == Some(1)
    requires !HasKey(w.log, ClientKey("release")) && !HasKey(w.log, ClientKey("claim"))
    requires DecisionAt(w.log, card).offer == Some(OpenOffer(b, Some("handoff"))) && !DecisionAt(w.log, card).handedUp
    ensures var next := RunAll(w, card, maxTurns, Takeover(card, c, owner, v));
      next.side == w.side && next.talk == Talking(1, c, b, Thread({c, b}, 0), |Said(w.side, 1, Thread({c, b}, 0))|)
  {
    var s := Takeover(card, c, owner, v);
    RunOfThree(w, card, maxTurns, s[0], s[1], s[2]);
    TakeoverPosts(w, card, maxTurns, c, v);
  }

  /** A holds the card and offers it to B; they say k things and the process dies; A releases the
      card and C claims it; the resumed talk is C's with B. The offer takes k + maxTurns turns. */
  lemma AnotherHolderStartsOver(card: Card, maxTurns: nat, k: nat, a: Id, b: Id, c: Id, owner: Id, v: View)
    requires k <= maxTurns && a != b && a != c && b != c && Quiet(v, {a, b, c})
    ensures var events := Opening(card, a, b, owner, v) + Discussions(k) + [Crash] + Takeover(card, c, owner, v) + Discussions(maxTurns);
      |About(RunAll(NOTHING, card, maxTurns, events).side, 1)| == k + maxTurns
  {
    var first := Opening(card, a, b, owner, v);
    OpeningTalks(card, maxTurns, a, b, owner, v);
    var w := RunAll(NOTHING, card, maxTurns, first);
    DiscussionGoesOn(w, card, maxTurns, k);
    RunsJoin(NOTHING, card, maxTurns, first, Discussions(k));
    var talked := RunAll(w, card, maxTurns, Discussions(k));
    RunsJoin(NOTHING, card, maxTurns, first + Discussions(k), [Crash]);
    var crashed := RunAll(talked, card, maxTurns, [Crash]);
    assert [Crash][..0] == [] && crashed == talked.(talk := Idle);
    var thread := Thread({c, b}, 0);
    assert a in Thread({a, b}, 0).pair && a !in thread.pair;
    TakeoverStartsOver(crashed, card, maxTurns, b, c, owner, v);
    RunsJoin(NOTHING, card, maxTurns, first + Discussions(k) + [Crash], Takeover(card, c, owner, v));
    var resumed := RunAll(crashed, card, maxTurns, Takeover(card, c, owner, v));
    assert Said(w.side, 1, thread) == [] && resumed.talk.turn == 0;
    DiscussionGoesOn(resumed, card, maxTurns, maxTurns);
    RunsJoin(NOTHING, card, maxTurns, first + Discussions(k) + [Crash] + Takeover(card, c, owner, v), Discussions(maxTurns));
  }

  // ---------------------------------------------------------------- how a talk ends

  function Closing(card: Card, key: Key, kind: Kind, to: Id): TaskBoard.Event {
    TaskBoard.Event(key, Some(Act(card, kind, Some(to))), if kind.Transfer? then "transfer" else "decline", false)
  }

  function BlockNote(card: Card, o: nat): TaskBoard.Event { TaskBoard.Event(BlockKey(o), Some(Act(card, Block, None)), "block", false) }

  /** The board takes a decline for the receiver: it is in the channel, and neither the room nor
      the card stands in the way. */
  predicate Takes(v: View, to: Id) { v.writable && IsPresent(to, v) && v.onBoard && !v.cardChanged }

  /** The board takes the card for the receiver, who also has time for it. */
  predicate Receives(v: View, to: Id) { Takes(v, to) && v.load < WIP_LIMIT && v.loadNow < WIP_LIMIT }

  /** The event records an outcome that the board takes. */
  predicate Outcome(w: World, e: Event) {
    e.Recorded? && match w.talk
      case Accepting(_, to) => Receives(e.v, to)
      case NotTransferred(_, to) => Takes(e.v, to)
      case Ending(_, to) => Takes(e.v, to)
      case Escalating(_, to) => Takes(e.v, to)
      case _ => false
  }

  /** Some event of the run did. */
  predicate OutcomeTaken(w: World, card: Card, maxTurns: nat, events: seq<Event>) {
    events != [] &&
      var front := events[..|events| - 1];
      OutcomeTaken(w, card, maxTurns, front) || Outcome(RunAll(w, card, maxTurns, front), events[|events| - 1])
  }

  lemma OutcomesTaken(w: World, card: Card, maxTurns: nat, v: View)
    requires Inv(w, card, maxTurns) && StillOpen(w, card)
    ensures var open := !DecisionAt(w.log, card).handedUp;
      && (Refusal(w.log, EndKey(w.talk.offer), Act(card, Transfer, Some(w.talk.to)), v).None? <==> open && Receives(v, w.talk.to))
      && (Refusal(w.log, EndKey(w.talk.offer), Act(card, Decline, Some(w.talk.to)), v).None? <==> open && Takes(v, w.talk.to))
      && (Refusal(w.log, DeclinedKey(w.talk.offer), Act(card, Decline, Some(w.talk.to)), v).None? <==> open && Takes(v, w.talk.to))
  {
    OpenOfferIsTheMark(w.log, card);
    assert forall m :: 0 <= m < |w.log| ==> !Ends(w.log[m].key, w.talk.offer);
    assert !HasKey(w.log, EndKey(w.talk.offer)) && !HasKey(w.log, DeclinedKey(w.talk.offer));
  }

  /** One closing event, and perhaps the block that follows a decline. */
  predicate ClosedAfter(log: Log, next: Log, card: Card, o: nat, to: Id) {
    || next == log + [Closing(card, EndKey(o), Transfer, to)]
    || next == log + [Closing(card, DeclinedKey(o), Decline, to)]
    || next == log + [Closing(card, EndKey(o), Decline, to)]
    || next == log + [Closing(card, EndKey(o), Decline, to), BlockNote(card, o)]
  }

  predicate OpenAfter(log: Log, next: Log, card: Card, o: nat) { next == log || next == log + [BlockNote(card, o)] }

  /** What a talk nobody disturbs may have written, with or without an outcome taken. */
  predicate Undisturbed(w0: World, w: World, card: Card, taken: bool)
    requires HasOffer(w0.talk)
  {
    var o, to := w0.talk.offer, w0.talk.to;
    if HasOffer(w.talk) then !taken && w.log == w0.log && w.talk.offer == o && w.talk.to == to
    else if w.talk.Blocking? then
      w.talk.offer == o && w.log == if taken then w0.log + [Closing(card, EndKey(o), Decline, to)] else w0.log
    else if taken then ClosedAfter(w0.log, w.log, card, o, to) else OpenAfter(w0.log, w.log, card, o)
  }

  lemma UndisturbedStep(w0: World, w: World, card: Card, maxTurns: nat, taken: bool, e: Event)
    requires Inv(w0, card, maxTurns) && StillOpen(w0, card) && Inv(w, card, maxTurns)
    requires HasOffer(w0.talk) && Undisturbed(w0, w, card, taken) && (e.Answered? || e.Recorded?)
    ensures Undisturbed(w0, NextWorld(w, card, maxTurns, e), card, taken || (Outcome(w, e) && !DecisionAt(w0.log, card).handedUp))
  {
    if e.Recorded? && HasOffer(w.talk) {
      OutcomesTaken(w, card, maxTurns, e.v);
    } else if e.Recorded? && w.talk.Blocking? && taken {
      var o := w0.talk.offer;
      var closed := Closing(card, EndKey(o), Decline, w0.talk.to);
      assert w0.log + [closed] + [BlockNote(card, o)] == w0.log + [closed, BlockNote(card, o)];
    }
  }

  lemma {:induction false} UndisturbedRun(w0: World, card: Card, maxTurns: nat, events: seq<Event>)
    requires Inv(w0, card, maxTurns) && StillOpen(w0, card) && OnlyTalk(events)
    ensures Undisturbed(w0, RunAll(w0, card, maxTurns, events), card,
                        OutcomeTaken(w0, card, maxTurns, events) && !DecisionAt(w0.log, card).handedUp)
  {
    if events != [] {
      var n := |events| - 1;
      assert forall i :: 0 <= i < n ==> events[..n][i] == events[i];
      UndisturbedRun(w0, card, maxTurns, events[..n]);
      RunKeepsInv(w0, card, maxTurns, events[..n]);
      assert events[n].Answered? || events[n].Recorded?;
      UndisturbedStep(w0, RunAll(w0, card, maxTurns, events[..n]), card, maxTurns,
                      OutcomeTaken(w0, card, maxTurns, events[..n]) && !DecisionAt(w0.log, card).handedUp, events[n]);
    }
  }

  /** The offer of the talk is closed by exactly one transfer or decline, after which the card is
      the receiver's or stays with its holder. */
  predicate ClosedOnce(log: Log, next: Log, card: Card, to: Id) {
    && log <= next && Closes(next, |log|, card) && (forall m :: |log| < m < |next| ==> !Closes(next, m, card))
    && DecisionAt(next, card).offer.None?
    && DecisionAt(next, card).assignee ==
      if Does(next, |log|, card.conversationId, card.taskId, Transfer) then Some(to) else DecisionAt(log, card).assignee
  }

  /** The offer stays open and the card with its holder. */
  predicate StaysOpen(log: Log, next: Log, card: Card) {
    && log <= next && (forall m :: |log| <= m < |next| ==> !Closes(next, m, card))
    && DecisionAt(next, card).offer == DecisionAt(log, card).offer && DecisionAt(next, card).assignee == DecisionAt(log, card).assignee
  }

  lemma ClosingCloses(log: Log, card: Card, key: Key, kind: Kind, to: Id)
    requires kind.Transfer? || kind.Decline?
    ensures ClosedOnce(log, log + [Closing(card, key, kind, to)], card, to)
  {
    assert (log + [Closing(card, key, kind, to)])[..|log|] == log;
  }

  lemma BlockKeeps(log: Log, card: Card, o: nat)
    ensures StaysOpen(log, log + [BlockNote(card, o)], card)
  {
    assert (log + [BlockNote(card, o)])[..|log|] == log;
  }

  lemma ClosedAfterIsOnce(log: Log, next: Log, card: Card, o: nat, to: Id)
    requires ClosedAfter(log, next, card, o, to)
    ensures ClosedOnce(log, next, card, to)
  {
    var declined := Closing(card, EndKey(o), Decline, to);
    if next == log + [declined, BlockNote(card, o)] {
      assert next == (log + [declined]) + [BlockNote(card, o)];
      ClosingCloses(log, card, EndKey(o), Decline, to);
      BlockKeeps(log + [declined], card, o);
    } else {
      ClosingCloses(log, card, EndKey(o), Transfer, to);
      ClosingCloses(log, card, DeclinedKey(o), Decline, to);
      ClosingCloses(log, card, EndKey(o), Decline, to);
    }
  }

  /** A talk that nobody disturbs and that came to its end closed its offer exactly once, if and
      only if the card was not handed up and the board took an outcome; otherwise it left the
      offer open. */
  lemma UndisturbedTalkClosesIff(w0: World, card: Card, maxTurns: nat, events: seq<Event>)
    requires Inv(w0, card, maxTurns) && StillOpen(w0, card) && OnlyTalk(events)
    requires RunAll(w0, card, maxTurns, events).talk.Idle?
    ensures var log := RunAll(w0, card, maxTurns, events).log;
      if OutcomeTaken(w0, card, maxTurns, events) && !DecisionAt(w0.log, card).handedUp then ClosedOnce(w0.log, log, card, w0.talk.to)
      else StaysOpen(w0.log, log, card)
  {
    UndisturbedRun(w0, card, maxTurns, events);
    var log, o := RunAll(w0, card, maxTurns, events).log, w0.talk.offer;
    if OutcomeTaken(w0, card, maxTurns, events) && !DecisionAt(w0.log, card).handedUp {
      ClosedAfterIsOnce(w0.log, log, card, o, w0.talk.to);
    } else if log != w0.log {
      BlockKeeps(w0.log, card, o);
    }
  }

  /** Every turn gets said, and while outcomes are written the room and the card stand still and
      the receiver is in the channel throughout, or not at all. */
  predicate Steady(events: seq<Event>, to: Id, present: bool) {
    && OnlyTalk(events)
    && forall i :: 0 <= i < |events| ==>
      && (events[i].Answered? ==> !events[i].answer.Unsaid?)
      && (events[i].Recorded? ==>
            && events[i].v.writable && events[i].v.onBoard && !events[i].v.cardChanged && (IsPresent(to, events[i].v) <==> present))
  }

  lemma SteadyStep(w: World, card: Card, maxTurns: nat, e: Event, present: bool)
    requires Inv(w, card, maxTurns) && StillOpen(w, card) && !DecisionAt(w.log, card).handedUp && Steady([e], w.talk.to, present)
    ensures Outcome(w, e) <==> present && !HasOffer(NextWorld(w, card, maxTurns, e).talk)
    ensures HasOffer(NextWorld(w, card, maxTurns, e).talk) || e.Recorded?
  {
    assert [e][0] == e;
    if e.Recorded? { OutcomesTaken(w, card, maxTurns, e.v); }
  }

  lemma {:induction false} SteadyOutcomes(w0: World, card: Card, maxTurns: nat, events: seq<Event>, present: bool)
    requires Inv(w0, card, maxTurns) && StillOpen(w0, card) && !DecisionAt(w0.log, card).handedUp && Steady(events, w0.talk.to, present)
    ensures OutcomeTaken(w0, card, maxTurns, events) <==> present && !HasOffer(RunAll(w0, card, maxTurns, events).talk)
  {
    if events != [] {
      var n := |events| - 1;
      assert forall i :: 0 <= i < n ==> events[..n][i] == events[i];
      SteadyOutcomes(w0, card, maxTurns, events[..n], present);
      UndisturbedRun(w0, card, maxTurns, events[..n]);
      RunKeepsInv(w0, card, maxTurns, events[..n]);
      var w, e := RunAll(w0, card, maxTurns, events[..n]), events[n];
      assert e.Answered? || e.Recorded?;
      if HasOffer(w.talk) { SteadyStep(w, card, maxTurns, e, present); }
    }
  }

  /** So it closes if and only if the receiver is AEEIS or an active member of the channel when
      the outcome is written. A receiver who left keeps the offer open, whatever was agreed. */
  lemma TalkClosesIffReceiverIsPresent(w0: World, card: Card, maxTurns: nat, events: seq<Event>, present: bool)
    requires Inv(w0, card, maxTurns) && StillOpen(w0, card) && !DecisionAt(w0.log, card).handedUp && Steady(events, w0.talk.to, present)
    requires RunAll(w0, card, maxTurns, events).talk.Idle?
    ensures var log := RunAll(w0, card, maxTurns, events).log;
      if present then ClosedOnce(w0.log, log, card, w0.talk.to) else StaysOpen(w0.log, log, card)
  {
    SteadyOutcomes(w0, card, maxTurns, events, present);
    UndisturbedTalkClosesIff(w0, card, maxTurns, events);
  }

  /** The receiver accepts and leaves the channel: neither the transfer nor the decline meant to
      replace it is taken, and the talk is over with the offer open and nothing written. */
  lemma DepartedReceiverKeepsTheOffer(w: World, card: Card, maxTurns: nat, v: View)
    requires Inv(w, card, maxTurns) && StillOpen(w, card) && w.talk.Accepting? && !IsPresent(w.talk.to, v)
    ensures RunAll(w, card, maxTurns, [Recorded(v), Recorded(v)]) == w.(talk := Idle)
  {
    assert [Recorded(v), Recorded(v)][..1] == [Recorded(v)];
    assert RunAll(w, card, maxTurns, [Recorded(v)]) == NextWorld(RunAll(w, card, maxTurns, [Recorded(v)][..0]), card, maxTurns, Recorded(v));
    OutcomesTaken(w, card, maxTurns, v);
    var next := RunAll(w, card, maxTurns, [Recorded(v)]);
    assert next == w.(talk := NotTransferred(w.talk.offer, w.talk.to));
    RecordKeepsInv(w, card, maxTurns, v);
    OutcomesTaken(next, card, maxTurns, v);
  }
}
