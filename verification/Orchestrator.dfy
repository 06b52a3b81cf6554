/** The debate loop of src/collaboration-pool.ts: rounds of participants until a decision, a
    bound, or nobody is left to speak. Role calls are an arbitrary function of the room; a
    message's id comes from the durable attempt of its round and speaker. Moderator reviews do
    not change the loop and are left to the debate modules. */
module Orchestrator {
  import opened Basics
  import opened Debate
  import opened DebateRuns

  datatype Output = Output(
    kind: MessageType, content: string, claimRefs: seq<Id>, replyTo: Option<Id>, gap: Option<GapDetails>, gapRef: Option<GapRef>)

  /** A role call's outcome: parsed output, an attempt still pending, or a failure. */
  datatype Answer = Says(output: Output) | Waits | Breaks

  /** Why the loop ended; the last three with the participant whose turn it was. */
  datatype Ending =
    | DecisionReached | RoundBound | NobodyLeft | MessageBound(agent: Id) | PendingAttempt(agent: Id) | Stopped(agent: Id)

  const DEFAULT_BOUND: nat := 1000

  function Bound(room: Room): nat { if room.maxTotalMessages.Some? then room.maxTotalMessages.value else DEFAULT_BOUND }

  predicate HasDecision(messages: seq<Message>) { exists i :: 0 <= i < |messages| && messages[i].kind.Decision? }

  predicate Spoke(messages: seq<Message>, round: nat, agent: Id) {
    exists i :: 0 <= i < |messages| && messages[i].round == round && messages[i].speaker == agent
  }

  predicate CanSpeak(room: Room, agent: Id) {
    room.maxMessagesPerAgent.None? || SpokenBy(room.messages, agent) < room.maxMessagesPerAgent.value
  }

  function Highest(messages: seq<Message>): (h: nat)
    ensures forall i :: 0 <= i < |messages| ==> messages[i].round <= h
    ensures h > 0 ==> exists i :: 0 <= i < |messages| && messages[i].round == h
  {
    if messages == [] then 0
    else
      var h := Highest(messages[..|messages| - 1]);
      var last := messages[|messages| - 1];
      assert messages == messages[..|messages| - 1] + [last];
      if h < last.round then last.round else h
  }

  function MessageOf(room: Room, id: Id, round: nat, agent: Id, o: Output): Message {
    Message(id, room.debateId, round, agent, o.replyTo, o.kind, o.content, o.claimRefs, room.contextVersion, o.gap, o.gapRef, None)
  }

  predicate OfTheRun(start: Room, messages: seq<Message>, i: nat, round: nat)
    requires i < |messages|
  {
    messages[i].round >= round && messages[i].speaker in start.participants
  }

  /** Only participants' appended messages of `round` and later were added to `start`. */
  ghost predicate Extends(start: Room, room: Room, round: nat) {
    && start.messages <= room.messages
    && room == start.(messages := room.messages, moderation := room.moderation)
    && forall i {:trigger OfTheRun(start, room.messages, i, round)} :: |start.messages| <= i < |room.messages| ==> OfTheRun(start, room.messages, i, round)
  }

  /** Nobody said an earlier message of the same round. */
  predicate FirstOfItsTurn(messages: seq<Message>, j: nat)
    requires j < |messages|
  {
    forall i :: 0 <= i < j ==> messages[i].round != messages[j].round || messages[i].speaker != messages[j].speaker
  }

  /** No agent speaks twice in a round, counting what the run added. */
  ghost predicate OncePerRound(start: Room, room: Room) {
    forall j {:trigger FirstOfItsTurn(room.messages, j)} :: |start.messages| <= j < |room.messages| ==> FirstOfItsTurn(room.messages, j)
  }

  /** A decision ends the talk: nothing was added after one. */
  ghost predicate DecisionIsLast(start: Room, room: Room) {
    |room.messages| > |start.messages| ==> !HasDecision(room.messages[..|room.messages| - 1])
  }

  /** The message of a round and speaker is in the room only if that speaker spoke in that round. */
  ghost predicate SlotIds(messages: seq<Message>, idFor: (nat, Id) -> Id) {
    && (forall r, a, s, b :: idFor(r, a) == idFor(s, b) ==> r == s && a == b)
    && (forall r, a {:trigger HasMessage(messages, idFor(r, a))} :: HasMessage(messages, idFor(r, a)) ==> Spoke(messages, r, a))
  }

  lemma AppendingKeepsSlotIds(messages: seq<Message>, m: Message, idFor: (nat, Id) -> Id)
    requires SlotIds(messages, idFor) && m.messageId == idFor(m.round, m.speaker)
    ensures SlotIds(messages + [m], idFor)
  {
    var next := messages + [m];
    forall r: nat, a | HasMessage(next, idFor(r, a)) ensures Spoke(next, r, a) {
      var i :| 0 <= i < |next| && next[i].messageId == idFor(r, a);
      if i < |messages| {
        assert HasMessage(messages, idFor(r, a));
        var k :| 0 <= k < |messages| && messages[k].round == r && messages[k].speaker == a;
        assert next[k] == messages[k];
      } else {
        assert next[|messages|] == m;
      }
    }
  }

  /** `next` is `room` with one message of this round and speaker. */
  ghost predicate Added(room: Room, next: Room, round: nat, agent: Id) {
    && |next.messages| == |room.messages| + 1 && room.messages == next.messages[..|room.messages|]
    && next == room.(messages := next.messages, moderation := next.moderation)
    && next.messages[|room.messages|].round == round && next.messages[|room.messages|].speaker == agent
  }

  /** The participant has a turn in this round, were there room for another message. */
  predicate MaySpeak(room: Room, round: nat, agent: Id) { !Spoke(room.messages, round, agent) && CanSpeak(room, agent) }

  /** The bounds the loop looks at are those at which the room itself refuses: no message of an agent
      that cannot speak, or beyond the total, is admitted, and no other is refused for its number. */
  lemma BoundsAreTheRooms(room: Room, m: Message, now: Time)
    ensures !CanSpeak(room, m.speaker) ==> AppendMessage(room, m, now).Err?
    ensures room.maxTotalMessages.Some? && |room.messages| >= Bound(room) ==> AppendMessage(room, m, now).Err?
    ensures AppendMessage(room, m, now) == Err(AgentLimit) ==> !CanSpeak(room, m.speaker)
    ensures AppendMessage(room, m, now) == Err(TotalLimit) ==> |room.messages| >= Bound(room)
    ensures room.maxTotalMessages.None? ==> Bound(room) == 1000
  {}

  /** A call that is still pending, or one that failed or whose message the room refuses. */
  predicate EndsTurn(room: Room, round: nat, agent: Id, idFor: (nat, Id) -> Id, answers: (nat, Id, Room) -> Answer, now: Time, ending: Ending) {
    match answers(round, agent, room)
    case Waits => ending == PendingAttempt(agent)
    case Breaks => ending == Stopped(agent)
    case Says(o) => ending == Stopped(agent) && AppendMessage(room, MessageOf(room, idFor(round, agent), round, agent, o), now).Err?
  }

  /** Why a round ended the run: a decision, or the turn of a participant that was due, because of
      the message bound or of its call. */
  predicate RoundEnds(room: Room, round: nat, idFor: (nat, Id) -> Id, answers: (nat, Id, Room) -> Answer, now: Time, ending: Ending) {
    match ending
    case DecisionReached => HasDecision(room.messages)
    case MessageBound(agent) => !HasDecision(room.messages) && agent in room.participants && MaySpeak(room, round, agent) && |room.messages| >= Bound(room)
    case PendingAttempt(agent) => TurnEnds(room, round, agent, idFor, answers, now, ending)
    case Stopped(agent) => TurnEnds(room, round, agent, idFor, answers, now, ending)
    case _ => false
  }

  predicate TurnEnds(room: Room, round: nat, agent: Id, idFor: (nat, Id) -> Id, answers: (nat, Id, Room) -> Answer, now: Time, ending: Ending) {
    && !HasDecision(room.messages) && |room.messages| < Bound(room) && agent in room.participants && MaySpeak(room, round, agent)
    && EndsTurn(room, round, agent, idFor, answers, now, ending)
  }

  /** One participant's turn: nothing is added unless the call completed and the room admits the message. */
  method TakeTurn(room: Room, round: nat, agent: Id, idFor: (nat, Id) -> Id, answers: (nat, Id, Room) -> Answer, now: Time)
    returns (next: Room, ending: Option<Ending>)
    requires SlotIds(room.messages, idFor)
    ensures ending.None? ==> Added(room, next, round, agent)
    ensures ending.Some? ==> next == room && EndsTurn(room, round, agent, idFor, answers, now, ending.value)
    ensures SlotIds(next.messages, idFor)
    ensures WithinLimits(room) ==> WithinLimits(next)
  {
    match answers(round, agent, room) {
      case Waits => return room, Some(PendingAttempt(agent));
      case Breaks => return room, Some(Stopped(agent));
      case Says(output) =>
        var m := MessageOf(room, idFor(round, agent), round, agent, output);
        var admitted := AppendMessage(room, m, now);
        if admitted.Err? { return room, Some(Stopped(agent)); }
        AppendingKeepsSlotIds(room.messages, m, idFor);
        if WithinLimits(room) { AppendStaysWithinLimits(room, m, now); }
        return admitted.value, None;
    }
  }

  /** What a round has done to `start` when the first j participants had their turn. */
  ghost predicate RoundState(start: Room, room: Room, round: nat, j: nat, idFor: (nat, Id) -> Id) {
    && Extends(start, room, round) && SlotIds(room.messages, idFor) && (forall i :: 0 <= i < |room.messages| ==> room.messages[i].round <= round)
    && OncePerRound(start, room) && DecisionIsLast(start, room)
    && (|room.messages| > |start.messages| ==> |room.messages| <= Bound(start))
    && (WithinLimits(start) ==> WithinLimits(room))
    && (|room.messages| == |start.messages| ==> room == start)
  }

  /** Everyone among the first j has spoken in this round or may not speak. */
  ghost predicate AllSilent(start: Room, round: nat, j: nat)
    requires j <= |start.participants|
  {
    forall k {:trigger CanSpeak(start, start.participants[k])} :: 0 <= k < j ==>
      Spoke(start.messages, round, start.participants[k]) || !CanSpeak(start, start.participants[k])
  }

  /** Everyone among the first j spoke in the round or may not speak any more. */
  ghost predicate AllHadTheirTurn(room: Room, round: nat, j: nat)
    requires j <= |room.participants|
  {
    forall k {:trigger MaySpeak(room, round, room.participants[k])} :: 0 <= k < j ==> !MaySpeak(room, round, room.participants[k])
  }

  /** Rounds from `first` up to `round`, not included. */
  ghost predicate RoundsRan(room: Room, first: nat, round: nat) {
    forall r: nat :: first <= r < round ==> AllHadTheirTurn(room, r, |room.participants|)
  }

  lemma {:induction false} SpokenByGrows(messages: seq<Message>, more: seq<Message>, agent: Id)
    requires messages <= more
    ensures SpokenBy(messages, agent) <= SpokenBy(more, agent)
    decreases |more|
  {
    if |messages| < |more| { SpokenByGrows(messages, more[..|more| - 1], agent); } else { assert messages == more; }
  }

  lemma TurnsStayHad(room: Room, next: Room, round: nat, j: nat)
    requires room.messages <= next.messages && next == room.(messages := next.messages, moderation := next.moderation)
    requires j <= |room.participants| && AllHadTheirTurn(room, round, j)
    ensures AllHadTheirTurn(next, round, j)
  {
    forall k | 0 <= k < j ensures !MaySpeak(next, round, next.participants[k]) {
      var agent := room.participants[k];
      assert !MaySpeak(room, round, agent);
      SpokenByGrows(room.messages, next.messages, agent);
      if i :| 0 <= i < |room.messages| && room.messages[i].round == round && room.messages[i].speaker == agent {
        assert next.messages[i] == room.messages[i];
      }
    }
  }

  lemma RoundsStayRun(room: Room, next: Room, first: nat, round: nat)
    requires room.messages <= next.messages && next == room.(messages := next.messages, moderation := next.moderation)
    requires RoundsRan(room, first, round)
    ensures RoundsRan(next, first, round)
    ensures AllHadTheirTurn(next, round, |next.participants|) ==> RoundsRan(next, first, round + 1)
  {
    forall r: nat | first <= r < round ensures AllHadTheirTurn(next, r, |next.participants|) {
      TurnsStayHad(room, next, r, |room.participants|);
    }
  }

  lemma TurnKeepsRound(start: Room, room: Room, next: Room, round: nat, j: nat, idFor: (nat, Id) -> Id, agent: Id)
    requires RoundState(start, room, round, j, idFor) && Added(room, next, round, agent) && agent in start.participants
    requires !HasDecision(room.messages) && !Spoke(room.messages, round, agent) && |room.messages| < Bound(room)
    requires SlotIds(next.messages, idFor) && (WithinLimits(room) ==> WithinLimits(next))
    ensures RoundState(start, next, round, j + 1, idFor)
  {
    var n := |room.messages|;
    assert forall i :: 0 <= i < n ==> next.messages[i] == room.messages[i];
    forall k | |start.messages| <= k < |next.messages| ensures FirstOfItsTurn(next.messages, k) && OfTheRun(start, next.messages, k, round) {
      if k < n { assert FirstOfItsTurn(room.messages, k) && OfTheRun(start, room.messages, k, round); }
    }
  }

  /** One round: every participant that may still speak in it speaks once. */
  method RunRound(start: Room, round: nat, idFor: (nat, Id) -> Id, answers: (nat, Id, Room) -> Answer, now: Time)
    returns (room: Room, spoke: bool, ending: Option<Ending>)
    requires SlotIds(start.messages, idFor) && forall i :: 0 <= i < |start.messages| ==> start.messages[i].round <= round
    ensures RoundState(start, room, round, |start.participants|, idFor)
    ensures ending.None? ==> (spoke <==> |room.messages| > |start.messages|)
    ensures ending.None? && !spoke ==> AllSilent(start, round, |start.participants|)
    ensures ending.None? ==> AllHadTheirTurn(room, round, |room.participants|)
    ensures ending.Some? ==> RoundEnds(room, round, idFor, answers, now, ending.value)
  {
    room, spoke, ending := start, false, None;
    for j := 0 to |start.participants|
      invariant RoundState(start, room, round, j, idFor)
      invariant spoke <==> |room.messages| > |start.messages|
      invariant !spoke ==> AllSilent(start, round, j)
      invariant AllHadTheirTurn(room, round, j)
    {
      var agent := start.participants[j];
      if HasDecision(room.messages) { return room, spoke, Some(DecisionReached); }
      if Spoke(room.messages, round, agent) || !CanSpeak(room, agent) { continue; }
      if |room.messages| >= Bound(room) { return room, spoke, Some(MessageBound(agent)); }
      var next, ended := TakeTurn(room, round, agent, idFor, answers, now);
      if ended.Some? { return room, spoke, ended; }
      TurnKeepsRound(start, room, next, round, j, idFor, agent);
      TurnsStayHad(room, next, round, j);
      room, spoke := next, true;
    }
  }

  /** What the run has done to `start` when round `round` is next or under way. */
  ghost predicate RunState(start: Room, room: Room, first: nat, round: nat, idFor: (nat, Id) -> Id) {
    && Extends(start, room, first) && SlotIds(room.messages, idFor) && Highest(room.messages) <= round
    && OncePerRound(start, room) && DecisionIsLast(start, room)
    && |room.messages| <= Max(|start.messages|, Bound(start))
    && (WithinLimits(start) ==> WithinLimits(room))
  }

  /** At most two rounds per added message, and one more unless messages of this round exist. */
  predicate FewRounds(start: Room, room: Room, round: nat, rounds: nat) {
    rounds <= 2 * (|room.messages| - |start.messages|) + (if Highest(room.messages) < round then 1 else 0)
  }

  /** Why the run ended: every round up to the bound ran, nobody may speak any more, or the last
      round says. */
  ghost predicate RunEnds(
    start: Room, room: Room, first: nat, rounds: nat, idFor: (nat, Id) -> Id, answers: (nat, Id, Room) -> Answer, now: Time, ending: Ending)
  {
    match ending
    case RoundBound =>
      start.maxRounds.Some? && start.maxRounds.value < first + rounds && RoundsRan(room, first, start.maxRounds.value + 1)
    case NobodyLeft => forall k :: 0 <= k < |start.participants| ==> !CanSpeak(room, start.participants[k])
    case DecisionReached => HasDecision(room.messages)
    case _ => rounds > 0 && var last := first + rounds - 1; RoundsRan(room, first, last) && RoundEnds(room, last, idFor, answers, now, ending)
  }

  lemma RoundJoins(start: Room, mid: Room, room: Room, first: nat, round: nat, idFor: (nat, Id) -> Id)
    requires RunState(start, mid, first, round, idFor) && first <= round
    requires RoundState(mid, room, round, |mid.participants|, idFor)
    ensures RunState(start, room, first, round + 1, idFor) && Highest(room.messages) <= round
  {
    JoinsOncePerRound(start, mid, room);
    assert forall i :: 0 <= i < |mid.messages| ==> room.messages[i] == mid.messages[i];
    forall i | |start.messages| <= i < |room.messages| ensures OfTheRun(start, room.messages, i, first) {
      if i < |mid.messages| { assert OfTheRun(start, mid.messages, i, first); } else { assert OfTheRun(mid, room.messages, i, round); }
    }
  }

  lemma RoundsStayFew(start: Room, room: Room, next: Room, round: nat, rounds: nat)
    requires FewRounds(start, room, round, rounds) && Highest(next.messages) <= round
    requires |next.messages| > |room.messages| || (next == room && round <= Highest(room.messages))
    ensures FewRounds(start, next, round + 1, rounds + 1)
  {}

  lemma BoundEndsRun(start: Room, room: Room, first: nat, rounds: nat, idFor: (nat, Id) -> Id, answers: (nat, Id, Room) -> Answer, now: Time)
    requires start.maxRounds.Some? && start.maxRounds.value < first + rounds && RoundsRan(room, first, first + rounds)
    ensures RunEnds(start, room, first, rounds, idFor, answers, now, RoundBound)
  {}

  lemma SilenceEndsRun(start: Room, room: Room, first: nat, rounds: nat, idFor: (nat, Id) -> Id, answers: (nat, Id, Room) -> Answer, now: Time)
    requires forall k :: 0 <= k < |start.participants| ==> !CanSpeak(room, start.participants[k])
    ensures RunEnds(start, room, first, rounds, idFor, answers, now, NobodyLeft)
  {}

  lemma LastRoundEndsRun(start: Room, room: Room, first: nat, rounds: nat, idFor: (nat, Id) -> Id, answers: (nat, Id, Room) -> Answer,
                         now: Time, ending: Ending)
    requires RoundsRan(room, first, first + rounds) && RoundEnds(room, first + rounds, idFor, answers, now, ending)
    ensures RunEnds(start, room, first, rounds + 1, idFor, answers, now, ending)
  {
    assert first + (rounds + 1) - 1 == first + rounds;
  }

  /** One pass of the round loop: the room after it, and the ending unless the next round follows. */
  method PlayRound(start: Room, room: Room, first: nat, rounds: nat, idFor: (nat, Id) -> Id, answers: (nat, Id, Room) -> Answer, now: Time)
    returns (next: Room, ended: Option<Ending>)
    requires RunState(start, room, first, first + rounds, idFor) && RoundsRan(room, first, first + rounds)
    ensures RunState(start, next, first, first + rounds + 1, idFor) && |room.messages| <= |next.messages|
    ensures ended.Some? ==> RunEnds(start, next, first, rounds + 1, idFor, answers, now, ended.value)
    ensures ended.None? ==> RoundsRan(next, first, first + rounds + 1) && Highest(next.messages) <= first + rounds
    ensures ended.None? ==> |next.messages| > |room.messages| || (next == room && first + rounds <= Highest(room.messages))
  {
    var round, spoke := first + rounds, false;
    next, spoke, ended := RunRound(room, round, idFor, answers, now);
    RoundJoins(start, room, next, first, round, idFor);
    RoundsStayRun(room, next, first, round);
    if ended.Some? {
      LastRoundEndsRun(start, next, first, rounds, idFor, answers, now, ended.value);
    } else if !spoke {
      var anyoneLeft := exists k :: 0 <= k < |room.participants| && CanSpeak(room, room.participants[k]);
      if !anyoneLeft {
        SilenceEndsRun(start, next, first, rounds + 1, idFor, answers, now);
        return next, Some(NobodyLeft);
      }
      SilentRoundHadSpeakers(room, round);
    }
  }

  /** Rounds `first` and on were played `rounds` times, and the run goes on. */
  ghost predicate Going(start: Room, room: Room, first: nat, rounds: nat, idFor: (nat, Id) -> Id) {
    RunState(start, room, first, first + rounds, idFor) && RoundsRan(room, first, first + rounds) && FewRounds(start, room, first + rounds, rounds)
  }

  /** The run is over, after so many rounds. */
  ghost predicate Over(
    start: Room, room: Room, first: nat, rounds: nat, idFor: (nat, Id) -> Id, answers: (nat, Id, Room) -> Answer, now: Time, ending: Ending)
  {
    && RunState(start, room, first, first + rounds, idFor) && RunEnds(start, room, first, rounds, idFor, answers, now, ending)
    && rounds <= 2 * (|room.messages| - |start.messages|) + 2
  }

  /** The bound check and one pass. A round that adds nothing is followed by one that does. */
  method NextRound(start: Room, room: Room, first: nat, rounds: nat, idFor: (nat, Id) -> Id, answers: (nat, Id, Room) -> Answer, now: Time)
    returns (next: Room, played: nat, ended: Option<Ending>)
    requires Going(start, room, first, rounds, idFor)
    ensures ended.None? ==> Going(start, next, first, played, idFor) && played == rounds + 1
    ensures ended.None? ==> |next.messages| > |room.messages| || (next == room && first + rounds <= Highest(room.messages))
    ensures ended.None? ==> Highest(next.messages) <= first + rounds
    ensures ended.Some? ==> Over(start, next, first, played, idFor, answers, now, ended.value)
  {
    if start.maxRounds.Some? && first + rounds > start.maxRounds.value {
      BoundEndsRun(start, room, first, rounds, idFor, answers, now);
      return room, rounds, Some(RoundBound);
    }
    next, ended := PlayRound(start, room, first, rounds, idFor, answers, now);
    played := rounds + 1;
    if ended.None? { RoundsStayFew(start, room, next, first + rounds, rounds); }
  }

  /** The whole run. It always ends, in at most two rounds per message and two more: a round in
      which nobody speaks while somebody may is followed by one in which somebody does. */
  method Run(start: Room, idFor: (nat, Id) -> Id, answers: (nat, Id, Room) -> Answer, now: Time)
    returns (room: Room, ending: Ending, rounds: nat)
    requires SlotIds(start.messages, idFor)
    ensures Extends(start, room, Max(1, Highest(start.messages)))
    ensures OncePerRound(start, room) && DecisionIsLast(start, room)
    ensures |room.messages| <= Max(|start.messages|, Bound(start))
    ensures WithinLimits(start) ==> WithinLimits(room)
    ensures rounds <= 2 * (|room.messages| - |start.messages|) + 2
    ensures RunEnds(start, room, Max(1, Highest(start.messages)), rounds, idFor, answers, now, ending)
  {
    if HasDecision(start.messages) { return start, DecisionReached, 0; }
    var first := Max(1, Highest(start.messages));
    room, rounds := start, 0;
    while true
      invariant Going(start, room, first, rounds, idFor)
      decreases Max(|start.messages|, Bound(start)) - |room.messages|, if Highest(room.messages) < first + rounds then 0 else 1
    {
      var next, played, ended := NextRound(start, room, first, rounds, idFor, answers, now);
      room, rounds := next, played;
      if ended.Some? { return room, ended.value, rounds; }
    }
  }

  /** A silent round in which somebody could still speak already had messages before it began. */
  lemma SilentRoundHadSpeakers(room: Room, round: nat)
    requires AllSilent(room, round, |room.participants|)
    requires exists k :: 0 <= k < |room.participants| && CanSpeak(room, room.participants[k])
    ensures round <= Highest(room.messages)
  {
    var k :| 0 <= k < |room.participants| && CanSpeak(room, room.participants[k]);
    assert Spoke(room.messages, round, room.participants[k]);
  }

  lemma JoinsOncePerRound(start: Room, mid: Room, room: Room)
    requires start.messages <= mid.messages <= room.messages
    ensures OncePerRound(start, mid) && OncePerRound(mid, room) ==> OncePerRound(start, room)
    ensures DecisionIsLast(start, mid) && DecisionIsLast(mid, room) ==> DecisionIsLast(start, room)
  {
    assert forall i :: 0 <= i < |mid.messages| ==> room.messages[i] == mid.messages[i];
    if OncePerRound(start, mid) && OncePerRound(mid, room) {
      forall j | |start.messages| <= j < |room.messages| ensures FirstOfItsTurn(room.messages, j) {
        if j < |mid.messages| { assert FirstOfItsTurn(mid.messages, j); }
      }
    }
  }
}
