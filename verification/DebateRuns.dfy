/** What every run of the debate room keeps: recorded verdicts can be re-derived from
    the final room, and the gap ledger means what its messages say. */
module DebateRuns {
  import opened Basics
  import opened Debate

  // ---------------------------------------------------------------- runs

  datatype RoomStep = Append(m: Message, now: Time) | AddReview(review: Review) | SetAdjudication(a: Adjudication)

  /** A refused message leaves the room as it was. */
  function Apply(room: Room, s: RoomStep): Room {
    match s
    case Append(m, now) => (match AppendMessage(room, m, now) case Ok(next) => next case Err(_) => room)
    case AddReview(r) => room.(reviews := room.reviews + [r])
    case SetAdjudication(a) => room.(adjudication := Some(a))
  }

  function ApplyAll(room: Room, steps: seq<RoomStep>): Room {
    if steps == [] then room else Apply(ApplyAll(room, steps[..|steps| - 1]), steps[|steps| - 1])
  }

  predicate Fresh(room: Room) {
    room.messages == [] && room.moderation == [] && room.reviews == []
  }

  function Prefix(room: Room, n: nat): Room
    requires n <= |room.messages| && n <= |room.moderation|
  {
    room.(messages := room.messages[..n], moderation := room.moderation[..n])
  }

  /** Message ids are unique, every message has its verdict at the same index, and that
      verdict is the policy's answer on the room before the message. */
  ghost predicate Recorded(room: Room) {
    && |room.moderation| == |room.messages|
    && (forall i, j :: 0 <= i < j < |room.messages| ==> room.messages[i].messageId != room.messages[j].messageId)
    && (forall i :: 0 <= i < |room.messages| ==> RecordedAt(room, i))
  }

  ghost predicate RecordedAt(room: Room, i: nat)
    requires i < |room.messages| == |room.moderation|
  {
    && WellFormed(room.messages[i])
    && room.moderation[i] == Moderate(Prefix(room, i), room.messages[i], room.moderation[i].checkedAt)
  }

  /** `later` continues `room`: only appended to. */
  ghost predicate Continues(room: Room, later: Room) {
    && room.messages <= later.messages && room.moderation <= later.moderation && room.reviews <= later.reviews
    && later.context == room.context && later.debateId == room.debateId
    && later.contextVersion == room.contextVersion && later.participants == room.participants
    && later.maxRounds == room.maxRounds && later.maxMessagesPerAgent == room.maxMessagesPerAgent
    && later.maxTotalMessages == room.maxTotalMessages
  }

  /** What the Moderator policy reads. */
  predicate SamePolicyView(a: Room, b: Room) {
    a.context == b.context && a.messages == b.messages && a.moderation == b.moderation
  }

  lemma {:induction false} ResolveDependsOnView(a: Room, b: Room, refs: seq<Id>)
    requires SamePolicyView(a, b)
    ensures Resolve(a, refs) == Resolve(b, refs) && Missing(a, refs) == Missing(b, refs)
    ensures SelectSupporting(a, refs) == SelectSupporting(b, refs)
  {
    if refs != [] { ResolveDependsOnView(a, b, refs[..|refs| - 1]); }
  }

  lemma ModerateDependsOnView(a: Room, b: Room, m: Message, now: Time)
    requires SamePolicyView(a, b)
    ensures Moderate(a, m, now) == Moderate(b, m, now)
  {
    ResolveDependsOnView(a, b, Distinct(m.claimRefs));
  }

  lemma PrefixRecorded(room: Room, n: nat)
    requires Recorded(room) && n <= |room.messages|
    ensures Recorded(Prefix(room, n))
  {
    var p := Prefix(room, n);
    forall i | 0 <= i < n ensures RecordedAt(p, i) {
      assert RecordedAt(room, i);
      assert Prefix(p, i) == Prefix(room, i);
    }
  }

  lemma ApplyKeepsRecorded(room: Room, s: RoomStep)
    requires Recorded(room)
    ensures Recorded(Apply(room, s)) && Continues(room, Apply(room, s))
  {
    var next := Apply(room, s);
    if s.Append? && AppendMessage(room, s.m, s.now).Ok? {
      var n := |room.messages|;
      assert Prefix(next, n) == room;
      forall i | 0 <= i <= n ensures RecordedAt(next, i) {
        if i < n {
          assert RecordedAt(room, i);
          assert Prefix(next, i) == Prefix(room, i);
        }
      }
      forall i, j | 0 <= i < j <= n ensures next.messages[i].messageId != next.messages[j].messageId {
        assert j == n ==> !HasMessage(room.messages, s.m.messageId);
      }
    } else {
      forall i | 0 <= i < |room.messages| ensures RecordedAt(next, i) {
        assert RecordedAt(room, i);
        ModerateDependsOnView(Prefix(next, i), Prefix(room, i), room.messages[i], room.moderation[i].checkedAt);
      }
    }
  }

  lemma {:induction false} EveryRunIsRecorded(room: Room, steps: seq<RoomStep>)
    requires Recorded(room)
    ensures Recorded(ApplyAll(room, steps)) && Continues(room, ApplyAll(room, steps))
  {
    if steps != [] {
      EveryRunIsRecorded(room, steps[..|steps| - 1]);
      ApplyKeepsRecorded(ApplyAll(room, steps[..|steps| - 1]), steps[|steps| - 1]);
    }
  }

  // ---------------------------------------------------------------- re-derivation

  lemma {:induction false} KeepForPrefix(room: Room, n: nat, k: nat)
    requires Recorded(room) && n <= |room.messages| && k <= |room.messages|
    ensures KeepFor(room.moderation[..k], IdsOf(room.messages[..n])) == room.moderation[..Min(k, n)]
  {
    if k > 0 {
      KeepForPrefix(room, n, k - 1);
      assert room.moderation[..k][..k - 1] == room.moderation[..k - 1];
      assert RecordedAt(room, k - 1);
      var ids := IdsOf(room.messages[..n]);
      if k <= n {
        assert room.messages[..n][k - 1].messageId in ids;
      } else {
        assert room.moderation[k - 1].messageId !in ids;
      }
    }
  }

  /** `debateRoomBefore` of the i-th message is exactly the first i messages with their verdicts. */
  lemma RoomBeforeIsPrefix(room: Room, i: nat)
    requires Recorded(room) && i < |room.messages|
    ensures RoomBefore(room, room.messages[i].messageId) == Prefix(room, i)
  {
    var k := IndexOf(room.messages, room.messages[i].messageId);
    assert k == i;
    KeepForPrefix(room, i, |room.messages|);
    assert room.moderation[..|room.messages|] == room.moderation;
  }

  /** Re-running the policy on the final room gives the recorded verdict, clock aside. */
  lemma RecordedVerdictIsRederived(room: Room, i: nat, now: Time)
    requires Recorded(room) && i < |room.messages|
    ensures Moderate(RoomBefore(room, room.messages[i].messageId), room.messages[i], now)
         == room.moderation[i].(checkedAt := now)
  {
    RoomBeforeIsPrefix(room, i);
    assert RecordedAt(room, i);
  }

  /** A decision is supported exactly when its recorded verdict passed and no review speaks against it. */
  lemma SupportedIffRecordedAccepted(room: Room, i: nat)
    requires Recorded(room) && i < |room.messages|
    ensures IsSupported(room, room.messages[i])
       <==> room.messages[i].kind.Decision? && room.moderation[i].status.Accepted?
            && !Contested(room.reviews, room.messages[i].messageId)
  {
    RecordedVerdictIsRederived(room, i, 0);
  }

  /** No later append changes whether a decision is supported, or by which references;
      only a new adverse review can withdraw support, and nothing can add it. */
  lemma SupportIsStable(room: Room, steps: seq<RoomStep>, i: nat)
    requires Recorded(room) && i < |room.messages|
    ensures var later, m := ApplyAll(room, steps), room.messages[i];
      && (IsSupported(later, m) <==> IsSupported(room, m) && !Contested(later.reviews, m.messageId))
      && (later.reviews == room.reviews ==> (IsSupported(later, m) <==> IsSupported(room, m)))
      && SupportRefs(later, m) == SupportRefs(room, m)
  {
    EveryRunIsRecorded(room, steps);
    var later, m := ApplyAll(room, steps), room.messages[i];
    assert later.messages[i] == m && later.moderation[i] == room.moderation[i];
    SupportedIffRecordedAccepted(room, i);
    SupportedIffRecordedAccepted(later, i);
    if Contested(room.reviews, m.messageId) {
      var k :| 0 <= k < |room.reviews| && Adverse(room.reviews[k], m.messageId);
      assert later.reviews[k] == room.reviews[k];
    }
    RoomBeforeIsPrefix(room, i);
    RoomBeforeIsPrefix(later, i);
    assert later.messages[..i] == room.messages[..i] && later.moderation[..i] == room.moderation[..i];
    ResolveDependsOnView(Prefix(later, i), Prefix(room, i), Distinct(m.claimRefs));
  }

  // ---------------------------------------------------------------- the gap ledger

  lemma {:induction false} LedgerReadsOwnIds(messages: seq<Message>, a: set<Id>, b: set<Id>)
    requires forall i :: 0 <= i < |messages| ==> (messages[i].messageId in a <==> messages[i].messageId in b)
    ensures LedgerOf(messages, a) == LedgerOf(messages, b)
  {
    if messages != [] {
      var front := messages[..|messages| - 1];
      assert forall i :: 0 <= i < |front| ==> front[i] == messages[i];
      LedgerReadsOwnIds(front, a, b);
    }
  }

  predicate AcceptedAt(room: Room, i: int) {
    0 <= i < |room.messages| && i < |room.moderation| && room.moderation[i].status.Accepted?
  }

  /** The ledger after the first n messages. */
  function GapsAt(room: Room, n: nat): Ledger
    requires n <= |room.messages|
  {
    LedgerOf(room.messages[..n], AcceptedIds(room.moderation))
  }

  lemma AcceptedIdsAt(room: Room, i: nat)
    requires Recorded(room) && i < |room.messages|
    ensures room.messages[i].messageId in AcceptedIds(room.moderation) <==> AcceptedAt(room, i)
  {
    forall k | 0 <= k < |room.messages| ensures room.moderation[k].messageId == room.messages[k].messageId {
      assert RecordedAt(room, k);
    }
  }

  lemma GapsAtIsGapsOfPrefix(room: Room, n: nat)
    requires Recorded(room) && n <= |room.messages|
    ensures GapsAt(room, n) == Gaps(Prefix(room, n))
  {
    var p := Prefix(room, n);
    PrefixRecorded(room, n);
    forall i | 0 <= i < n
      ensures p.messages[i].messageId in AcceptedIds(room.moderation) <==> p.messages[i].messageId in AcceptedIds(p.moderation)
    {
      AcceptedIdsAt(room, i);
      AcceptedIdsAt(p, i);
    }
    LedgerReadsOwnIds(p.messages, AcceptedIds(room.moderation), AcceptedIds(p.moderation));
  }

  /** The ledger moves by one step per message, and only on accepted ones, which point at
      gaps that are still unresolved. */
  lemma LedgerStep(room: Room, n: nat)
    requires Recorded(room) && n < |room.messages|
    ensures GapsAt(room, n + 1)
         == if AcceptedAt(room, n) then GapStep(GapsAt(room, n), room.messages[n]) else GapsAt(room, n)
    ensures WellFormed(room.messages[n])
    ensures AcceptedAt(room, n) ==> GapViolations(GapsAt(room, n), room.messages[n]) == []
  {
    AcceptedIdsAt(room, n);
    GapsAtIsGapsOfPrefix(room, n);
    assert RecordedAt(room, n);
    assert room.messages[..n + 1][..n] == room.messages[..n];
  }

  /** The ledger of room+message is one step on the ledger of the room, for every append. */
  lemma AppendStepsLedger(room: Room, m: Message, now: Time)
    requires Recorded(room) && AppendMessage(room, m, now).Ok?
    ensures Gaps(AppendMessage(room, m, now).value)
         == if Moderate(room, m, now).status.Accepted? then GapStep(Gaps(room), m) else Gaps(room)
  {
    var next, n := AppendMessage(room, m, now).value, |room.messages|;
    ApplyKeepsRecorded(room, Append(m, now));
    LedgerStep(next, n);
    GapsAtIsGapsOfPrefix(next, n);
    assert Prefix(next, n) == room && next.messages[..n + 1] == next.messages;
  }

  /** Message i, accepted, points at this gap. */
  predicate PointsAt(room: Room, i: nat, id: Id) {
    AcceptedAt(room, i) && room.messages[i].gapRef.Some? && room.messages[i].gapRef.value.gapId == id
  }

  /** The accepted observations of a gap among the first n messages, in order. */
  function AnswerIds(room: Room, n: nat, id: Id): seq<Id>
    requires n <= |room.messages|
  {
    if n == 0 then []
    else
      var rest, answers := AnswerIds(room, n - 1, id), PointsAt(room, n - 1, id) && room.messages[n - 1].kind.Observation?;
      if answers then rest + [room.messages[n - 1].messageId] else rest
  }

  /** The accepted messages that resolve a gap among the first n, by index. */
  function Resolvers(room: Room, n: nat, id: Id): (r: seq<nat>)
    requires n <= |room.messages|
    ensures forall k :: 0 <= k < |r| ==> r[k] < n
  {
    if n == 0 then []
    else
      var rest, resolves := Resolvers(room, n - 1, id), PointsAt(room, n - 1, id) && !room.messages[n - 1].kind.Observation?;
      if resolves then rest + [n - 1] else rest
  }

  predicate Raised(room: Room, n: nat, id: Id) {
    var r := IndexOf(room.messages, id);
    r < n && AcceptedAt(room, r) && room.messages[r].kind.GapMessage?
  }

  function StateOf(r: Resolution): GapState { if r.ResolveClosed? then Closed else Unresolvable }

  /** The declarative reading of one ledger entry: the message that raised it, all
      accepted observations that answered it, and at most one resolver, who is the raiser;
      nothing answers after the resolver, and a closed gap was answered before it. */
  ghost predicate EntryMeans(room: Room, n: nat, id: Id, g: Gap)
    requires n <= |room.messages|
  {
    var r, answers, resolvers := IndexOf(room.messages, id), AnswerIds(room, n, id), Resolvers(room, n, id);
    && Raised(room, n, id)
    && g.gapId == id && g.raisedBy == room.messages[r].speaker && g.round == room.messages[r].round
    && room.messages[r].gap == Some(g.details)
    && g.answeredBy == answers
    && (resolvers == [] ==> g.resolvedBy == None && g.state == if answers == [] then Open else Answered)
    && (resolvers != [] ==> |resolvers| == 1 && ResolvedBy(room, n, id, g, resolvers[0]))
  }

  ghost predicate ResolvedBy(room: Room, n: nat, id: Id, g: Gap, z: nat)
    requires z < n <= |room.messages|
  {
    var m := room.messages[z];
    && IndexOf(room.messages, id) < z
    && g.resolvedBy == Some(m.messageId) && m.speaker == g.raisedBy
    && m.gapRef.Some? && m.gapRef.value.resolution.Some?
    && g.state == StateOf(m.gapRef.value.resolution.value)
    && AnswerIds(room, n, id) == AnswerIds(room, z, id)
    && (g.state.Closed? ==> AnswerIds(room, z, id) != [])
  }

  /** The facts of LedgerStep for every message, without the policy behind them. */
  ghost predicate StepsLedger(room: Room) {
    && (forall i, j :: 0 <= i < j < |room.messages| ==> room.messages[i].messageId != room.messages[j].messageId)
    && (forall n :: 0 <= n < |room.messages| ==> StepsAt(room, n))
  }

  ghost predicate StepsAt(room: Room, n: nat)
    requires n < |room.messages|
  {
    && WellFormed(room.messages[n])
    && GapsAt(room, n + 1) == (if AcceptedAt(room, n) then GapStep(GapsAt(room, n), room.messages[n]) else GapsAt(room, n))
    && (AcceptedAt(room, n) ==> GapViolations(GapsAt(room, n), room.messages[n]) == [])
  }

  lemma RecordedStepsLedger(room: Room)
    requires Recorded(room)
    ensures StepsLedger(room)
  {
    forall n | 0 <= n < |room.messages| ensures StepsAt(room, n) { LedgerStep(room, n); }
  }

  ghost predicate LedgerMeans(room: Room, n: nat, id: Id)
    requires n <= |room.messages|
  {
    && (id in GapsAt(room, n) <==> Raised(room, n, id))
    && (id in GapsAt(room, n) ==> EntryMeans(room, n, id, GapsAt(room, n)[id]))
    && (id !in GapsAt(room, n) ==> AnswerIds(room, n, id) == [] && Resolvers(room, n, id) == [])
  }

  lemma NewGapMeans(room: Room, n: nat, id: Id)
    requires StepsLedger(room) && n < |room.messages| && LedgerMeans(room, n, id) && room.messages[n].messageId == id
    ensures LedgerMeans(room, n + 1, id)
  {
    assert StepsAt(room, n);
    assert IndexOf(room.messages, id) == n;
  }

  lemma PointedGapMeans(room: Room, n: nat, id: Id)
    requires StepsLedger(room) && n < |room.messages| && LedgerMeans(room, n, id)
    requires room.messages[n].messageId != id && PointsAt(room, n, id)
    ensures LedgerMeans(room, n + 1, id)
  {
    assert StepsAt(room, n);
    assert Resolvers(room, n, id) == [];
    assert IndexOf(room.messages, id) != n;
  }

  lemma OtherGapMeans(room: Room, n: nat, id: Id)
    requires StepsLedger(room) && n < |room.messages| && LedgerMeans(room, n, id)
    requires room.messages[n].messageId != id && !PointsAt(room, n, id)
    ensures LedgerMeans(room, n + 1, id)
  {
    assert StepsAt(room, n);
    assert IndexOf(room.messages, id) != n;
  }

  lemma {:induction false} LedgerMeansAlways(room: Room, n: nat, id: Id)
    requires StepsLedger(room) && n <= |room.messages|
    ensures LedgerMeans(room, n, id)
  {
    if n > 0 {
      LedgerMeansAlways(room, n - 1, id);
      if room.messages[n - 1].messageId == id { NewGapMeans(room, n - 1, id); }
      else if PointsAt(room, n - 1, id) { PointedGapMeans(room, n - 1, id); }
      else { OtherGapMeans(room, n - 1, id); }
    }
  }

  /** In every recorded room the ledger holds exactly the raised gaps, each meaning what the messages say. */
  lemma LedgerIsSound(room: Room, id: Id)
    requires Recorded(room)
    ensures var n := |room.messages|;
      && (id in Gaps(room) <==> Raised(room, n, id))
      && (id in Gaps(room) ==> EntryMeans(room, n, id, Gaps(room)[id]))
  {
    RecordedStepsLedger(room);
    LedgerMeansAlways(room, |room.messages|, id);
    assert room.messages[..|room.messages|] == room.messages;
  }

  /** A gap that is in the ledger was raised by an earlier message, so the next message is not it. */
  lemma GapIsOlder(room: Room, n: nat, id: Id)
    requires StepsLedger(room) && n < |room.messages| && id in GapsAt(room, n)
    ensures room.messages[n].messageId != id
  {
    LedgerMeansAlways(room, n, id);
  }

  lemma ResolvedSurvivesStep(room: Room, n: nat, id: Id)
    requires StepsLedger(room) && n < |room.messages|
    requires id in GapsAt(room, n) && Resolved(GapsAt(room, n)[id])
    ensures id in GapsAt(room, n + 1) && GapsAt(room, n + 1)[id] == GapsAt(room, n)[id]
  {
    GapIsOlder(room, n, id);
    assert StepsAt(room, n);
  }

  lemma {:induction false} ResolvedFrozenFrom(room: Room, k: nat, n: nat, id: Id)
    requires StepsLedger(room) && k <= n <= |room.messages|
    requires id in GapsAt(room, k) && Resolved(GapsAt(room, k)[id])
    ensures id in GapsAt(room, n) && GapsAt(room, n)[id] == GapsAt(room, k)[id]
    decreases n
  {
    if k < n {
      ResolvedFrozenFrom(room, k, n - 1, id);
      ResolvedSurvivesStep(room, n - 1, id);
    }
  }

  /** Over whole runs a resolved gap never changes again. */
  lemma ResolvedGapsAreFrozen(room: Room, steps: seq<RoomStep>, id: Id)
    requires Recorded(room) && id in Gaps(room) && Resolved(Gaps(room)[id])
    ensures id in Gaps(ApplyAll(room, steps)) && Gaps(ApplyAll(room, steps))[id] == Gaps(room)[id]
  {
    EveryRunIsRecorded(room, steps);
    var later, n := ApplyAll(room, steps), |room.messages|;
    assert later.messages[..n] == room.messages && later.moderation[..n] == room.moderation;
    GapsAtIsGapsOfPrefix(later, n);
    RecordedStepsLedger(later);
    ResolvedFrozenFrom(later, n, |later.messages|, id);
    assert later.messages[..|later.messages|] == later.messages;
  }

  // ---------------------------------------------------------------- the Adjudicator policy

  lemma {:induction false} ResolveFindsSupport(room: Room, refs: seq<Id>)
    ensures Backed(Resolve(room, refs)) ==> SelectSupporting(room, refs) != []
    ensures forall x :: x in SelectSupporting(room, refs) <==> x in refs && InContext(room.context, x)
  {
    if refs != [] {
      var front := refs[..|refs| - 1];
      ResolveFindsSupport(room, front);
      assert refs == front + [refs[|refs| - 1]];
      var claims := Resolve(room, refs);
      if Backed(claims) {
        var i :| 0 <= i < |claims| && Supporting(claims[i].authority);
        assert i < |Resolve(room, front)| ==> Resolve(room, front)[i] == claims[i];
      }
    }
  }

  /** What supports a message is exactly what it cites from the Context Pack, and a supported
      decision cites something from it. */
  lemma SupportedHasEvidence(room: Room, m: Message)
    ensures forall x :: x in SupportRefs(room, m) <==> x in m.claimRefs && InContext(room.context, x)
    ensures IsSupported(room, m) ==> SupportRefs(room, m) != []
  {
    var before := RoomBefore(room, m.messageId);
    ResolveFindsSupport(before, Distinct(m.claimRefs));
    DistinctKeepsMembers(m.claimRefs);
    assert IsSupported(room, m) ==> Violations(before, m) == [];
  }

  /** i is the last supported message. */
  ghost predicate IsLatestSupported(room: Room, i: nat) {
    && i < |room.messages| && IsSupported(room, room.messages[i])
    && (forall j :: i < j < |room.messages| ==> !IsSupported(room, room.messages[j]))
  }

  lemma {:induction false} FindLastFinds<T>(xs: seq<T>, p: T -> bool) returns (i: nat)
    ensures FindLast(xs, p).None? ==> forall j :: 0 <= j < |xs| ==> !p(xs[j])
    ensures FindLast(xs, p).Some? ==> i < |xs| && FindLast(xs, p).value == xs[i] && p(xs[i])
                                      && forall j :: i < j < |xs| ==> !p(xs[j])
  {
    i := 0;
    if xs != [] {
      if p(xs[|xs| - 1]) { i := |xs| - 1; } else { i := FindLastFinds(xs[..|xs| - 1], p); }
    }
  }

  /** The Adjudicator decides exactly when some decision is supported; it then publishes the
      latest one, which passed moderation when it was said, and as evidence exactly what it cites
      from the Context Pack, which is not nothing. */
  lemma AdjudicatorTakesLatestSupported(room: Room, now: Time) returns (i: nat)
    requires Recorded(room)
    ensures var a := Adjudicate(room, now);
      && (a.status.Decided? <==> exists k :: 0 <= k < |room.messages| && IsSupported(room, room.messages[k]))
      && (a.status.Held? ==> a.selected.None? && a.evidenceRefs == [])
      && (a.status.Decided? ==>
            && IsLatestSupported(room, i) && AcceptedAt(room, i)
            && a.selected == Some(room.messages[i].messageId) && a.decision == room.messages[i].content
            && a.evidenceRefs == SupportRefs(room, room.messages[i]) && a.evidenceRefs != []
            && (forall x :: x in a.evidenceRefs <==> x in room.messages[i].claimRefs && InContext(room.context, x)))
  {
    i := FindLastFinds(room.messages, m => IsSupported(room, m));
    if LatestSupported(room).Some? {
      SupportedHasEvidence(room, room.messages[i]);
      SupportedIffRecordedAccepted(room, i);
    }
  }

  // ---------------------------------------------------------------- what a verdict and an admission mean

  lemma {:induction false} ResolveSplitsRefs(room: Room, refs: seq<Id>)
    ensures forall c :: c in Resolve(room, refs) <==> c.ref in refs && ClaimAuthority(room, c.ref) == Some(c.authority)
    ensures forall x :: x in Missing(room, refs) <==> x in refs && ClaimAuthority(room, x).None?
  {
    if refs != [] {
      var front := refs[..|refs| - 1];
      ResolveSplitsRefs(room, front);
      assert refs == front + [refs[|refs| - 1]];
    }
  }

  ghost predicate CitesContext(room: Room, m: Message) { exists x :: x in m.claimRefs && InContext(room.context, x) }

  ghost predicate GapMoveAllowed(gaps: Ledger, m: Message) {
    m.gapRef.Some? ==>
      && m.gapRef.value.gapId in gaps
      && !Resolved(gaps[m.gapRef.value.gapId])
      && (m.gapRef.value.resolution.Some? ==> gaps[m.gapRef.value.gapId].raisedBy == m.speaker)
      && (m.gapRef.value.resolution == Some(ResolveClosed) ==> gaps[m.gapRef.value.gapId].state.Answered?)
  }

  lemma BackedMeansContext(room: Room, m: Message)
    ensures Backed(Resolve(room, Distinct(m.claimRefs))) <==> CitesContext(room, m)
    ensures SomeAuthority(Resolve(room, Distinct(m.claimRefs)), FromContext) <==> CitesContext(room, m)
  {
    var claims := Resolve(room, Distinct(m.claimRefs));
    DistinctKeepsMembers(m.claimRefs);
    ResolveSplitsRefs(room, Distinct(m.claimRefs));
    assert forall i :: 0 <= i < |claims| ==> claims[i] in claims;
    if CitesContext(room, m) {
      var x :| x in m.claimRefs && InContext(room.context, x);
      assert RefAuthority(x, FromContext) in claims;
    }
  }

  lemma ClaimChecksMean(room: Room, m: Message)
    ensures var claims, missing := Resolve(room, Distinct(m.claimRefs)), Missing(room, Distinct(m.claimRefs));
      && (missing == [] <==> forall x :: x in m.claimRefs ==> ClaimAuthority(room, x).Some?)
      && (missing == [] ==> (BeyondContext(claims) <==> exists x :: x in m.claimRefs && !InContext(room.context, x)))
      && HighestAuthority(claims) == (if CitesContext(room, m) then FromContext else Asserted)
      && (forall x :: x in missing <==> x in m.claimRefs && ClaimAuthority(room, x).None?)
  {
    var claims, missing := Resolve(room, Distinct(m.claimRefs)), Missing(room, Distinct(m.claimRefs));
    BackedMeansContext(room, m);
    DistinctKeepsMembers(m.claimRefs);
    ResolveSplitsRefs(room, Distinct(m.claimRefs));
    assert missing != [] ==> missing[0] in missing;
    assert forall i :: 0 <= i < |claims| ==> claims[i] in claims;
    if missing == [] && !BeyondContext(claims) {
      forall x | x in m.claimRefs ensures InContext(room.context, x) {
        assert RefAuthority(x, ClaimAuthority(room, x).value) in claims;
      }
    }
  }

  lemma GapChecksMean(gaps: Ledger, m: Message)
    ensures GapViolations(gaps, m) == [] <==> GapMoveAllowed(gaps, m)
  {}

  /** The Moderator accepts a message exactly when every reference resolves, an evidence-bearing
      message cites the Context Pack, an observation cites nothing else, and its gap move is
      allowed; its trust level is the Context Pack's exactly when it cites the Context Pack. */
  lemma AcceptedMeans(room: Room, m: Message, now: Time)
    ensures var v := Moderate(room, m, now);
      && (v.status.Accepted? <==>
            (&& (forall x :: x in m.claimRefs ==> ClaimAuthority(room, x).Some?)
             && (EvidenceBearing(m.kind) ==> CitesContext(room, m))
             && (m.kind.Observation? ==> forall x :: x in m.claimRefs ==> InContext(room.context, x))
             && GapMoveAllowed(Gaps(room), m)))
      && v.authority == (if CitesContext(room, m) then FromContext else Asserted)
      && (forall x :: x in v.missing <==> x in m.claimRefs && ClaimAuthority(room, x).None?)
  {
    BackedMeansContext(room, m);
    ClaimChecksMean(room, m);
    GapChecksMean(Gaps(room), m);
  }

  /** Every limit and binding the room promises about its messages. */
  ghost predicate WithinLimits(room: Room) {
    && (room.maxTotalMessages.Some? ==> |room.messages| <= room.maxTotalMessages.value)
    && (room.maxMessagesPerAgent.Some? ==>
          forall agent :: SpokenBy(room.messages, agent) <= room.maxMessagesPerAgent.value)
    && (forall i :: 0 <= i < |room.messages| ==> BoundToRoom(room, i))
    && (forall i, j :: 0 <= i < j < |room.messages| ==> room.messages[i].messageId != room.messages[j].messageId)
  }

  ghost predicate BoundToRoom(room: Room, i: nat)
    requires i < |room.messages|
  {
    var m := room.messages[i];
    && WellFormed(m) && m.debateId == room.debateId && m.contextVersion == room.contextVersion
    && m.speaker in room.participants && !Repeats(room.participants)
    && (room.maxRounds.Some? ==> m.round <= room.maxRounds.value)
    && (m.replyTo.Some? ==> HasMessage(room.messages[..i], m.replyTo.value))
  }

  lemma EarlierStayBound(room: Room, m: Message)
    ensures var next := room.(messages := room.messages + [m]);
      forall i :: 0 <= i < |room.messages| ==> (BoundToRoom(next, i) <==> BoundToRoom(room, i))
  {
    var next := room.(messages := room.messages + [m]);
    forall i | 0 <= i < |room.messages| ensures BoundToRoom(next, i) <==> BoundToRoom(room, i) {
      assert next.messages[..i] == room.messages[..i];
    }
  }

  /** Admission is exact: within the limits, a message is appended if and only if the room
      with it is still within the limits, and then it is the last one, with its verdict. */
  lemma AppendAdmitsExactly(room: Room, m: Message, now: Time)
    requires WithinLimits(room)
    ensures AppendMessage(room, m, now).Ok? <==> WithinLimits(room.(messages := room.messages + [m]))
  {
    var next := room.(messages := room.messages + [m]);
    var n := |room.messages|;
    EarlierStayBound(room, m);
    assert next.messages[..n] == room.messages && next.messages[n] == m;
    assert forall agent :: SpokenBy(next.messages, agent) == SpokenBy(room.messages, agent) + if m.speaker == agent then 1 else 0;
    assert WithinLimits(next) ==> BoundToRoom(next, n);
    assert SpokenBy(next.messages, m.speaker) == SpokenBy(room.messages, m.speaker) + 1;
    if AppendMessage(room, m, now).Ok? { assert BoundToRoom(next, n); }
  }

  /** An admitted message keeps the limits; its verdict does not matter to them. */
  lemma AppendStaysWithinLimits(room: Room, m: Message, now: Time)
    requires WithinLimits(room) && AppendMessage(room, m, now).Ok?
    ensures WithinLimits(AppendMessage(room, m, now).value)
  {
    var after := AppendMessage(room, m, now).value;
    var same := room.(messages := after.messages);
    AppendAdmitsExactly(room, m, now);
    assert forall i :: 0 <= i < |after.messages| && BoundToRoom(same, i) ==> BoundToRoom(after, i);
  }

  lemma {:induction false} EveryRunIsWithinLimits(room: Room, steps: seq<RoomStep>)
    requires WithinLimits(room)
    ensures WithinLimits(ApplyAll(room, steps))
  {
    if steps != [] {
      EveryRunIsWithinLimits(room, steps[..|steps| - 1]);
      var before, s := ApplyAll(room, steps[..|steps| - 1]), steps[|steps| - 1];
      var after := Apply(before, s);
      if s.Append? && AppendMessage(before, s.m, s.now).Ok? {
        AppendStaysWithinLimits(before, s.m, s.now);
      } else {
        assert forall i :: 0 <= i < |after.messages| && BoundToRoom(before, i) ==> BoundToRoom(after, i);
      }
    }
  }
}
