/** The debate room of src/collaboration.ts: trust levels, the gap ledger, the
    Moderator policy run on every message, and the Adjudicator policy that
    re-derives old verdicts from the final room. */
module Debate {
  import opened Basics

  datatype MessageType =
    | Position | Evidence | Challenge | Rebuttal | Clarification | Concession
    | Decision | GapMessage | Observation

  datatype GapDetails = GapDetails(question: string, impact: string, query: Option<string>)

  datatype Resolution = ResolveClosed | ResolveUnresolvable

  datatype GapRef = GapRef(gapId: Id, resolution: Option<Resolution>)

  datatype Message = Message(
    messageId: Id, debateId: Id, round: nat, speaker: Id, replyTo: Option<Id>, kind: MessageType,
    content: string, claimRefs: seq<Id>, contextVersion: Id, gap: Option<GapDetails>, gapRef: Option<GapRef>,
    origin: Option<string>)

  /** The shape rules of the message schema. */
  predicate WellFormed(m: Message) {
    && m.round >= 1
    && (m.kind.GapMessage? <==> m.gap.Some?)
    && (m.kind.GapMessage? ==> m.gapRef.None?)
    && (m.kind.Observation? ==> m.gapRef.Some? && m.gapRef.value.resolution.None?)
    && (!m.kind.Observation? && m.gapRef.Some? ==> m.gapRef.value.resolution.Some?)
  }

  /** Trust levels, highest first. */
  datatype Authority = FromContext | Observed | Reported | Asserted

  datatype Claim = Claim(id: Id, evidenceRefs: seq<Id>)

  datatype ContextPack = ContextPack(claims: seq<Claim>, artifactRefs: seq<Id>)

  datatype Verdict = Accepted | Flagged

  datatype Violation =
    | OutsideContext | NoSupportingEvidence | ObservationBeyondContext
    | UnknownGap | GapAlreadyResolved | NotTheRaiser | ClosedBeforeAnswer

  datatype RefAuthority = RefAuthority(ref: Id, authority: Authority)

  datatype Moderation = Moderation(
    messageId: Id, status: Verdict, violations: seq<Violation>, missing: seq<Id>, checkedAt: Time,
    authority: Authority, claimAuthority: seq<RefAuthority>)

  datatype Review = Review(
    messageId: Id, reviewer: Id, status: Verdict, violations: seq<string>, missing: seq<Id>)

  datatype AdjudicationStatus = Decided | Held

  datatype Adjudication = Adjudication(
    status: AdjudicationStatus, decision: string, selected: Option<Id>, evidenceRefs: seq<Id>,
    decidedAt: Time, adjudicator: Option<Id>)

  datatype Room = Room(
    debateId: Id, contextVersion: Id, participants: seq<Id>, context: Option<ContextPack>,
    maxRounds: Option<nat>, maxMessagesPerAgent: Option<nat>, maxTotalMessages: Option<nat>,
    messages: seq<Message>, moderation: seq<Moderation>, reviews: seq<Review>,
    adjudication: Option<Adjudication>)

  // ---------------------------------------------------------------- trust levels

  predicate InContext(context: Option<ContextPack>, ref: Id) {
    context.Some? &&
    ((exists i :: 0 <= i < |context.value.claims| &&
        (context.value.claims[i].id == ref || ref in context.value.claims[i].evidenceRefs))
     || ref in context.value.artifactRefs)
  }

  predicate HasMessage(messages: seq<Message>, id: Id) {
    exists i :: 0 <= i < |messages| && messages[i].messageId == id
  }

  /** Context Pack references carry its authority, messages only that of an assertion; any other
      reference resolves to nothing. */
  function ClaimAuthority(room: Room, ref: Id): Option<Authority> {
    if InContext(room.context, ref) then Some(FromContext)
    else if HasMessage(room.messages, ref) then Some(Asserted)
    else None
  }

  predicate Supporting(a: Authority) { a.FromContext? || a.Observed? }

  predicate EvidenceBearing(t: MessageType) {
    t.Evidence? || t.Challenge? || t.Rebuttal? || t.Concession? || t.Decision? || t.Observation?
  }

  // ---------------------------------------------------------------- the gap ledger

  datatype GapState = Open | Answered | Closed | Unresolvable

  datatype Gap = Gap(
    gapId: Id, raisedBy: Id, round: nat, details: GapDetails, state: GapState, answeredBy: seq<Id>,
    resolvedBy: Option<Id>)

  predicate Resolved(g: Gap) { g.state.Closed? || g.state.Unresolvable? }

  type Ledger = map<Id, Gap>

  function AcceptedIds(moderation: seq<Moderation>): set<Id> {
    set i | 0 <= i < |moderation| && moderation[i].status.Accepted? :: moderation[i].messageId
  }

  /** What one accepted message does to the ledger. */
  function GapStep(gaps: Ledger, m: Message): Ledger {
    if m.kind.GapMessage? && m.gap.Some? then
      gaps[m.messageId := Gap(m.messageId, m.speaker, m.round, m.gap.value, Open, [], None)]
    else if m.gapRef.None? || m.gapRef.value.gapId !in gaps then gaps
    else
      var id, g := m.gapRef.value.gapId, gaps[m.gapRef.value.gapId];
      if m.kind.Observation? then
        gaps[id := g.(answeredBy := g.answeredBy + [m.messageId], state := if g.state.Open? then Answered else g.state)]
      else
        match m.gapRef.value.resolution
        case None => gaps
        case Some(ResolveClosed) => gaps[id := g.(state := Closed, resolvedBy := Some(m.messageId))]
        case Some(ResolveUnresolvable) => gaps[id := g.(state := Unresolvable, resolvedBy := Some(m.messageId))]
  }

  function LedgerOf(messages: seq<Message>, accepted: set<Id>): Ledger {
    if messages == [] then map[]
    else
      var before, m := LedgerOf(messages[..|messages| - 1], accepted), messages[|messages| - 1];
      if m.messageId in accepted then GapStep(before, m) else before
  }

  function Gaps(room: Room): Ledger { LedgerOf(room.messages, AcceptedIds(room.moderation)) }

  method DebateGaps(room: Room) returns (gaps: Ledger)
    ensures gaps == Gaps(room)
  {
    var accepted := AcceptedIds(room.moderation);
    gaps := map[];
    for i := 0 to |room.messages|
      invariant gaps == LedgerOf(room.messages[..i], accepted)
    {
      var m := room.messages[i];
      assert room.messages[..i + 1][..i] == room.messages[..i];
      if m.messageId !in accepted { continue; }
      if m.kind.GapMessage? && m.gap.Some? {
        gaps := gaps[m.messageId := Gap(m.messageId, m.speaker, m.round, m.gap.value, Open, [], None)];
        continue;
      }
      if m.gapRef.None? || m.gapRef.value.gapId !in gaps { continue; }
      var g := gaps[m.gapRef.value.gapId];
      if m.kind.Observation? {
        g := g.(answeredBy := g.answeredBy + [m.messageId]);
        if g.state.Open? { g := g.(state := Answered); }
      } else if m.gapRef.value.resolution.Some? {
        g := g.(state := if m.gapRef.value.resolution.value.ResolveClosed? then Closed else Unresolvable,
                resolvedBy := Some(m.messageId));
      }
      gaps := gaps[m.gapRef.value.gapId := g];
    }
    assert room.messages[..|room.messages|] == room.messages;
  }

  // ---------------------------------------------------------------- Moderator policy

  function Resolve(room: Room, refs: seq<Id>): seq<RefAuthority> {
    if refs == [] then []
    else
      var rest, ref := Resolve(room, refs[..|refs| - 1]), refs[|refs| - 1];
      match ClaimAuthority(room, ref)
      case Some(a) => rest + [RefAuthority(ref, a)]
      case None => rest
  }

  function Missing(room: Room, refs: seq<Id>): seq<Id> {
    if refs == [] then []
    else
      var rest, ref := Missing(room, refs[..|refs| - 1]), refs[|refs| - 1];
      if ClaimAuthority(room, ref).None? then rest + [ref] else rest
  }

  predicate SomeAuthority(claims: seq<RefAuthority>, a: Authority) {
    exists i :: 0 <= i < |claims| && claims[i].authority == a
  }

  function HighestAuthority(claims: seq<RefAuthority>): Authority {
    if SomeAuthority(claims, FromContext) then FromContext
    else if SomeAuthority(claims, Observed) then Observed
    else if SomeAuthority(claims, Reported) then Reported
    else Asserted
  }

  predicate Backed(claims: seq<RefAuthority>) {
    exists i :: 0 <= i < |claims| && Supporting(claims[i].authority)
  }

  predicate BeyondContext(claims: seq<RefAuthority>) {
    exists i :: 0 <= i < |claims| && !claims[i].authority.FromContext?
  }

  function GapViolations(gaps: Ledger, m: Message): seq<Violation> {
    if m.gapRef.None? then []
    else if m.gapRef.value.gapId !in gaps then [UnknownGap]
    else
      var g := gaps[m.gapRef.value.gapId];
      if Resolved(g) then [GapAlreadyResolved]
      else if m.gapRef.value.resolution.None? then []
      else if g.raisedBy != m.speaker then [NotTheRaiser]
      else if m.gapRef.value.resolution.value.ResolveClosed? && !g.state.Answered? then [ClosedBeforeAnswer]
      else []
  }

  function Violations(room: Room, m: Message): seq<Violation> {
    var claims := Resolve(room, Distinct(m.claimRefs));
    (if Missing(room, Distinct(m.claimRefs)) != [] then [OutsideContext] else [])
    + (if EvidenceBearing(m.kind) && !Backed(claims) then [NoSupportingEvidence] else [])
    + (if m.kind.Observation? && BeyondContext(claims) then [ObservationBeyondContext] else [])
    + GapViolations(Gaps(room), m)
  }

  function Moderate(room: Room, m: Message, now: Time): Moderation {
    var refs := Distinct(m.claimRefs);
    var claims, violations := Resolve(room, refs), Violations(room, m);
    Moderation(m.messageId, if violations == [] then Accepted else Flagged, violations,
               Missing(room, refs), now, HighestAuthority(claims), claims)
  }

  method CheckGapRef(room: Room, m: Message) returns (violations: seq<Violation>)
    ensures violations == GapViolations(Gaps(room), m)
  {
    violations := [];
    if m.gapRef.None? { return; }
    var gaps := DebateGaps(room);
    if m.gapRef.value.gapId !in gaps { return [UnknownGap]; }
    var g := gaps[m.gapRef.value.gapId];
    if g.state.Closed? || g.state.Unresolvable? { return [GapAlreadyResolved]; }
    if m.gapRef.value.resolution.Some? {
      if g.raisedBy != m.speaker { return [NotTheRaiser]; }
      if m.gapRef.value.resolution.value.ResolveClosed? && !g.state.Answered? { return [ClosedBeforeAnswer]; }
    }
  }

  method ModerateDebateMessage(room: Room, m: Message, now: Time) returns (r: Moderation)
    ensures r == Moderate(room, m, now)
  {
    var refs := Distinct(m.claimRefs);
    var claims: seq<RefAuthority>, missing: seq<Id> := [], [];
    for i := 0 to |refs|
      invariant claims == Resolve(room, refs[..i]) && missing == Missing(room, refs[..i])
    {
      assert refs[..i + 1][..i] == refs[..i];
      match ClaimAuthority(room, refs[i])
      case Some(a) => claims := claims + [RefAuthority(refs[i], a)];
      case None => missing := missing + [refs[i]];
    }
    assert refs[..|refs|] == refs;
    var gapViolations := CheckGapRef(room, m);
    var violations :=
      (if missing != [] then [OutsideContext] else [])
      + (if EvidenceBearing(m.kind) && !Backed(claims) then [NoSupportingEvidence] else [])
      + (if m.kind.Observation? && BeyondContext(claims) then [ObservationBeyondContext] else [])
      + gapViolations;
    r := Moderation(m.messageId, if violations == [] then Accepted else Flagged, violations, missing, now,
                    HighestAuthority(claims), claims);
  }

  // ---------------------------------------------------------------- re-derivation

  /** Index of the first message with this id, or the length when there is none. */
  function IndexOf(messages: seq<Message>, id: Id): (k: nat)
    ensures k <= |messages|
    ensures k < |messages| ==> messages[k].messageId == id
    ensures forall j :: 0 <= j < k ==> messages[j].messageId != id
  {
    if messages == [] then 0
    else
      var k := IndexOf(messages[..|messages| - 1], id);
      if k < |messages| - 1 then k
      else if messages[|messages| - 1].messageId == id then |messages| - 1
      else |messages|
  }

  function KeepFor(moderation: seq<Moderation>, ids: set<Id>): seq<Moderation> {
    if moderation == [] then []
    else
      var rest, item := KeepFor(moderation[..|moderation| - 1], ids), moderation[|moderation| - 1];
      if item.messageId in ids then rest + [item] else rest
  }

  function IdsOf(messages: seq<Message>): set<Id> {
    set i | 0 <= i < |messages| :: messages[i].messageId
  }

  /** The room cut off in front of a message: what the message was judged against. */
  function RoomBefore(room: Room, id: Id): Room {
    var k := IndexOf(room.messages, id);
    if k == |room.messages| then room
    else room.(messages := room.messages[..k], moderation := KeepFor(room.moderation, IdsOf(room.messages[..k])))
  }

  function SelectSupporting(room: Room, refs: seq<Id>): seq<Id> {
    if refs == [] then []
    else
      var rest, ref := SelectSupporting(room, refs[..|refs| - 1]), refs[|refs| - 1];
      var a := ClaimAuthority(room, ref);
      if a.Some? && Supporting(a.value) then rest + [ref] else rest
  }

  /** What a message cites that carries weight in an adjudication, each reference once. */
  function SupportRefs(room: Room, m: Message): seq<Id> {
    SelectSupporting(RoomBefore(room, m.messageId), Distinct(m.claimRefs))
  }

  predicate Adverse(r: Review, id: Id) {
    r.messageId == id && (r.status.Flagged? || r.violations != [] || r.missing != [])
  }

  predicate Contested(reviews: seq<Review>, id: Id) {
    exists i :: 0 <= i < |reviews| && Adverse(reviews[i], id)
  }

  predicate IsSupported(room: Room, m: Message) {
    && m.kind.Decision?
    && Moderate(RoomBefore(room, m.messageId), m, 0).status.Accepted?
    && !Contested(room.reviews, m.messageId)
  }

  /** The latest supported decision. */
  function LatestSupported(room: Room): Option<Message> {
    FindLast(room.messages, m => IsSupported(room, m))
  }

  const NO_DECISION := "No evidence-bound decision is available."

  function Adjudicate(room: Room, now: Time): Adjudication {
    match LatestSupported(room)
    case Some(m) => Adjudication(Decided, m.content, Some(m.messageId), SupportRefs(room, m), now, None)
    case None => Adjudication(Held, NO_DECISION, None, [], now, None)
  }

  // ---------------------------------------------------------------- appending

  datatype AppendError =
    | InvalidMessage | AnotherRoom | NotAParticipant | DuplicateParticipants | RoundLimit | TotalLimit
    | AgentLimit | AlreadyExists | ReplyMissing

  function SpokenBy(messages: seq<Message>, agent: Id): nat {
    if messages == [] then 0
    else SpokenBy(messages[..|messages| - 1], agent) + (if messages[|messages| - 1].speaker == agent then 1 else 0)
  }

  predicate Repeats(xs: seq<Id>) { exists i, j :: 0 <= i < j < |xs| && xs[i] == xs[j] }

  function AppendMessage(room: Room, m: Message, now: Time): Result<Room, AppendError> {
    if !WellFormed(m) then Err(InvalidMessage)
    else if m.debateId != room.debateId || m.contextVersion != room.contextVersion then Err(AnotherRoom)
    else if m.speaker !in room.participants then Err(NotAParticipant)
    else if Repeats(room.participants) then Err(DuplicateParticipants)
    else if room.maxRounds.Some? && m.round > room.maxRounds.value then Err(RoundLimit)
    else if room.maxTotalMessages.Some? && |room.messages| >= room.maxTotalMessages.value then Err(TotalLimit)
    else if room.maxMessagesPerAgent.Some? && SpokenBy(room.messages, m.speaker) >= room.maxMessagesPerAgent.value
    then Err(AgentLimit)
    else if HasMessage(room.messages, m.messageId) then Err(AlreadyExists)
    else if m.replyTo.Some? && !HasMessage(room.messages, m.replyTo.value) then Err(ReplyMissing)
    else Ok(room.(messages := room.messages + [m], moderation := room.moderation + [Moderate(room, m, now)]))
  }
}
