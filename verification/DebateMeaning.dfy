/** What the rules of the debate room say of any message, room and ledger, reachable or not. */
module DebateMeaning {
  import opened Basics
  import opened Counting
  import opened Debate

  // ---------------------------------------------------------------- the shape of a message

  predicate Raises(m: Message) { m.gap.Some? }

  predicate Answers(m: Message) { m.gapRef.Some? && m.gapRef.value.resolution.None? }

  predicate Resolves(m: Message) { m.gapRef.Some? && m.gapRef.value.resolution.Some? }

  /** A message has the right shape exactly when it has a round and its kind allows its one gap move:
      gap messages raise, observations answer, and the others resolve or leave the gaps alone. */
  lemma ShapeMeans(m: Message)
    ensures WellFormed(m) <==>
      && m.round > 0
      && (m.kind.GapMessage? ==> Raises(m) && !Answers(m) && !Resolves(m))
      && (m.kind.Observation? ==> Answers(m) && !Raises(m) && !Resolves(m))
      && (!m.kind.GapMessage? && !m.kind.Observation? ==> !Raises(m) && !Answers(m))
  {}

  // ---------------------------------------------------------------- trust

  /** The Context Pack names this reference: as a claim, as evidence of one, or as an artifact. */
  predicate InPack(room: Room, ref: Id) {
    room.context.Some?
    && ((exists c :: c in room.context.value.claims && (c.id == ref || ref in c.evidenceRefs)) || ref in room.context.value.artifactRefs)
  }

  /** A reference has the trust of the Context Pack exactly when that names it, and that of an assertion
      exactly when only a message of the room does; what neither names resolves to nothing. */
  lemma ReferencesMean(room: Room, ref: Id)
    ensures ClaimAuthority(room, ref) == Some(FromContext) <==> InPack(room, ref)
    ensures ClaimAuthority(room, ref) == Some(Asserted) <==> !InPack(room, ref) && exists m :: m in room.messages && m.messageId == ref
    ensures ClaimAuthority(room, ref).None? <==> !InPack(room, ref) && forall m :: m in room.messages ==> m.messageId != ref
  {
    assert InContext(room.context, ref) <==> InPack(room, ref);
    assert HasMessage(room.messages, ref) <==> exists m :: m in room.messages && m.messageId == ref;
  }

  function Trust(a: Authority): nat {
    match a
    case FromContext => 3
    case Observed => 2
    case Reported => 1
    case Asserted => 0
  }

  /** The level of a message is the highest of what it cites, and that of an assertion when nothing it
      cites resolves. */
  lemma HighestIsTheStrongest(claims: seq<RefAuthority>)
    ensures forall i :: 0 <= i < |claims| ==> Trust(claims[i].authority) <= Trust(HighestAuthority(claims))
    ensures claims != [] ==> exists i :: 0 <= i < |claims| && claims[i].authority == HighestAuthority(claims)
    ensures claims == [] ==> HighestAuthority(claims).Asserted?
  {
    if claims != [] {
      assert SomeAuthority(claims, claims[0].authority);
      if !SomeAuthority(claims, FromContext) && !SomeAuthority(claims, Observed) && !SomeAuthority(claims, Reported) {
        assert forall i :: 0 <= i < |claims| ==> !claims[i].authority.FromContext? && !claims[i].authority.Observed? && !claims[i].authority.Reported?;
        assert claims[0].authority.Asserted?;
      }
    }
  }

  /** Participants repeat exactly when their set is smaller than their list. */
  lemma RepeatsMeans(xs: seq<Id>)
    ensures Repeats(xs) <==> |Members(xs)| < |xs|
  {
    MembersCount(xs);
    if Repeats(xs) {
      var i, j :| 0 <= i < j < |xs| && xs[i] == xs[j];
    }
  }

  /** A speaker has said as many messages as there are places in the room with its name. */
  lemma {:induction false} SpokenByCounts(messages: seq<Message>, agent: Id)
    ensures SpokenBy(messages, agent) == |Holding(messages, (m: Message) => m.speaker == agent)|
  {
    HoldingCount(messages, (m: Message) => m.speaker == agent);
    if messages != [] { SpokenByCounts(messages[..|messages| - 1], agent); }
  }

  // ---------------------------------------------------------------- the ledger and the past of a room

  /** Whatever the ledger, an answer adds its name and moves no gap but an open one; nothing but a gap
      message of the same name removes an answer, and nothing else touches who asked what. */
  lemma AnswersNeverReopen(gaps: Ledger, m: Message, id: Id)
    requires id in gaps && !(m.kind.GapMessage? && m.gap.Some?)
    ensures id in GapStep(gaps, m)
    ensures var before, after := gaps[id], GapStep(gaps, m)[id];
      && after == before.(state := after.state, answeredBy := after.answeredBy, resolvedBy := after.resolvedBy)
      && (m.gapRef.None? || m.gapRef.value.gapId != id ==> after == before)
      && (m.kind.Observation? && m.gapRef.Some? && m.gapRef.value.gapId == id ==>
            && after.answeredBy == before.answeredBy + [m.messageId] && after.resolvedBy == before.resolvedBy
            && (if before.state.Open? then after.state.Answered? else after.state == before.state))
  {}

  /** The room before a message that is not there is the room itself; before any other it holds the
      messages up to its first occurrence, and of the verdicts those about them. */
  lemma RoomBeforeMeans(room: Room, id: Id)
    ensures !HasMessage(room.messages, id) ==> RoomBefore(room, id) == room
    ensures HasMessage(room.messages, id) ==>
      var before := RoomBefore(room, id);
      && before == room.(messages := before.messages, moderation := before.moderation)
      && before.messages <= room.messages && |before.messages| < |room.messages|
      && room.messages[|before.messages|].messageId == id && !HasMessage(before.messages, id)
      && (forall v :: v in before.moderation <==> v in room.moderation && HasMessage(before.messages, v.messageId))
  {
    var k := IndexOf(room.messages, id);
    if k < |room.messages| {
      var before := room.messages[..k];
      KeepsExactly(room.moderation, IdsOf(before));
      assert forall x :: x in IdsOf(before) <==> HasMessage(before, x);
    }
  }

  lemma {:induction false} KeepsExactly(moderation: seq<Moderation>, ids: set<Id>)
    ensures forall v :: v in KeepFor(moderation, ids) <==> v in moderation && v.messageId in ids
  {
    if moderation != [] {
      var n := |moderation| - 1;
      KeepsExactly(moderation[..n], ids);
      assert moderation == moderation[..n] + [moderation[n]];
    }
  }
}
