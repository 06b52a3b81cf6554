/** The task board of src/channel-task-action.ts and src/channel-board.ts: decisions are a fold
    over room events, and every write is checked against that fold under the room's lock. */
module TaskBoard {
  import opened Basics

  /** `Control` stands for `move` and `clear_override`, which decide nothing. */
  datatype Kind =
    | Claim | Assign | Transfer | Refuse | Release | Accept | RequestChanges | Block | Unblock | Cancel | Restore
    | HandUp | Propose | Adopt | Offer | Decline | Control

  datatype Action = Action(
    kind: Kind, conversationId: Id, taskId: Id, agent: Option<Id>, reason: Option<string>, acceptedRun: Option<Id>)

  /** Idempotency keys: those of clients, and those a handoff derives from the offer it ends. */
  datatype Key = ClientKey(text: string) | EndKey(offer: nat) | DeclinedKey(offer: nat) | BlockKey(offer: nat)

  /** A room event with the action it carries when the room owner wrote it. A `legacy` event has
      no structured action: its action is read out of its text. */
  datatype Event = Event(key: Key, action: Option<Action>, content: string, legacy: bool)

  type Log = seq<Event>

  datatype OpenOffer = OpenOffer(agent: Id, note: Option<string>)

  datatype Decision = Decision(
    assignee: Option<Id>, conflicts: seq<Id>, accepted: bool, acceptedRun: Option<Id>, revision: Option<string>,
    blockedNote: Option<string>, cancelled: bool, cancelReason: Option<string>, released: bool, handedUp: bool,
    proposedBy: Option<Id>, proposalReason: Option<string>, adopted: bool, offer: Option<OpenOffer>, lines: seq<string>)

  function EmptyDecision(): Decision {
    Decision(None, [], false, None, None, None, false, None, false, false, None, None, false, None, [])
  }

  predicate NeedsAgent(k: Kind) { k.Claim? || k.Assign? || k.Transfer? || k.Offer? || k.Propose? }

  predicate NeedsReason(k: Kind) {
    k.Refuse? || k.Release? || k.RequestChanges? || k.Block? || k.Unblock? || k.Cancel? || k.Restore? || k.Decline?
  }

  function TextOf(reason: Option<string>): string { if reason.Some? then reason.value else "" }

  /** What one action does to a task's decision; an action without its agent does nothing, any
      other leaves its line. */
  function Applied(d: Decision, a: Action, line: string): Decision {
    if NeedsAgent(a.kind) && a.agent.None? then d
    else
      var lines := d.lines + [line];
      match a.kind
      case Claim =>
        if d.assignee.Some? && d.assignee != a.agent then d.(conflicts := d.conflicts + [a.agent.value], released := false, lines := lines)
        else d.(assignee := a.agent, released := false, lines := lines)
      case Assign => d.(assignee := a.agent, cancelled := false, released := false, offer := None, lines := lines)
      case Transfer => d.(assignee := a.agent, cancelled := false, released := false, offer := None, lines := lines)
      case Propose =>
        d.(proposedBy := a.agent, adopted := false, proposalReason := if a.reason.Some? then a.reason else d.proposalReason, lines := lines)
      case Adopt => d.(adopted := true, lines := lines)
      case Offer => d.(offer := Some(OpenOffer(a.agent.value, a.reason)), lines := lines)
      case Decline => d.(offer := None, lines := lines)
      case Refuse => d.(assignee := None, lines := lines)
      case Release => d.(assignee := None, released := true, lines := lines)
      case Accept => d.(accepted := true, acceptedRun := if a.acceptedRun.Some? then a.acceptedRun else d.acceptedRun, lines := lines)
      case RequestChanges => d.(revision := Some(TextOf(a.reason)), accepted := false, lines := lines)
      case Block => d.(blockedNote := Some(TextOf(a.reason)), lines := lines)
      case Unblock => d.(blockedNote := None, lines := lines)
      case Cancel =>
        d.(cancelled := true, offer := None, cancelReason := if a.reason.Some? then a.reason else d.cancelReason, lines := lines)
      case Restore => d.(cancelled := false, cancelReason := None, lines := lines)
      case HandUp => d.(handedUp := true, lines := lines)
      case Control => d.(lines := lines)
  }

  // ---------------------------------------------------------------- two folds

  predicate ActsOn(e: Event, conversationId: Id, taskId: Id) {
    e.action.Some? && e.action.value.conversationId == conversationId && e.action.value.taskId == taskId
  }

  /** The guard's fold over one task. */
  function DecisionOf(log: Log, conversationId: Id, taskId: Id): Decision {
    if log == [] then EmptyDecision()
    else
      var d, e := DecisionOf(log[..|log| - 1], conversationId, taskId), log[|log| - 1];
      if ActsOn(e, conversationId, taskId) then Applied(d, e.action.value, e.content) else d
  }

  method DecisionFrom(log: Log, conversationId: Id, taskId: Id) returns (d: Decision)
    ensures d == DecisionOf(log, conversationId, taskId)
  {
    d := EmptyDecision();
    for i := 0 to |log|
      invariant d == DecisionOf(log[..i], conversationId, taskId)
    {
      assert log[..i + 1][..i] == log[..i];
      if ActsOn(log[i], conversationId, taskId) { d := Applied(d, log[i].action.value, log[i].content); }
    }
    assert log[..|log|] == log;
  }

  function TaskKey(conversationId: Id, taskId: Id): string { conversationId + "\0" + taskId }

  /** The board's fold over all tasks at once. */
  function Project(log: Log): map<string, Decision> {
    if log == [] then map[]
    else
      var decisions, e := Project(log[..|log| - 1]), log[|log| - 1];
      if e.action.None? then decisions
      else
        var key := TaskKey(e.action.value.conversationId, e.action.value.taskId);
        decisions[key := Applied(if key in decisions then decisions[key] else EmptyDecision(), e.action.value, e.content)]
  }

  method ProjectDecisions(log: Log) returns (decisions: map<string, Decision>)
    ensures decisions == Project(log)
  {
    decisions := map[];
    for i := 0 to |log|
      invariant decisions == Project(log[..i])
    {
      assert log[..i + 1][..i] == log[..i];
      if log[i].action.None? { continue; }
      var a := log[i].action.value;
      var key := TaskKey(a.conversationId, a.taskId);
      var d := if key in decisions then decisions[key] else EmptyDecision();
      decisions := decisions[key := Applied(d, a, log[i].content)];
    }
    assert log[..|log|] == log;
  }

  /** Citation ids never contain the separator. */
  predicate PlainIds(log: Log) {
    forall i :: 0 <= i < |log| && log[i].action.Some? ==> '\0' !in log[i].action.value.conversationId
  }

  lemma TaskKeyIsInjective(c: Id, t: Id, d: Id, u: Id)
    requires '\0' !in c && '\0' !in d
    ensures TaskKey(c, t) == TaskKey(d, u) <==> c == d && t == u
  {
    var a, b := TaskKey(c, t), TaskKey(d, u);
    FirstNul(c, t);
    FirstNul(d, u);
    if a == b {
      assert c == a[..|c|] && d == b[..|d|];
      assert t == a[|c| + 1..] && u == b[|d| + 1..];
    }
  }

  lemma FirstNul(c: Id, t: Id)
    requires '\0' !in c
    ensures TaskKey(c, t)[|c|] == '\0' && forall i :: 0 <= i < |c| ==> TaskKey(c, t)[i] != '\0'
  {
    forall i | 0 <= i < |c| ensures TaskKey(c, t)[i] != '\0' { assert c[i] in c; }
  }

  /** For every task the board's projection is the guard's own fold. */
  lemma {:induction false} ProjectionIsTheGuardsFold(log: Log, c: Id, t: Id)
    requires PlainIds(log) && '\0' !in c
    ensures TaskKey(c, t) in Project(log) <==> exists i :: 0 <= i < |log| && ActsOn(log[i], c, t)
    ensures DecisionOf(log, c, t) == if TaskKey(c, t) in Project(log) then Project(log)[TaskKey(c, t)] else EmptyDecision()
  {
    if log != [] {
      var n := |log| - 1;
      assert forall i :: 0 <= i < n ==> log[..n][i] == log[i];
      ProjectionIsTheGuardsFold(log[..n], c, t);
      if log[n].action.Some? { TaskKeyIsInjective(c, t, log[n].action.value.conversationId, log[n].action.value.taskId); }
      if i :| 0 <= i < n && ActsOn(log[..n][i], c, t) { assert ActsOn(log[i], c, t); }
      if i :| 0 <= i < |log| && ActsOn(log[i], c, t) {
        assert i < n ==> ActsOn(log[..n][i], c, t);
      }
    }
  }

  // ---------------------------------------------------------------- the write guard

  datatype Conflict =
    | ChooseSomeone | ReasonMissing | WasHandedUp | AlreadyClaimed | ClaimedBy(holder: Id) | AlreadyAccepted | NotBlocked
    | NotCancelled | AlreadyCancelled | AlreadyProposed | NotProposed | AlreadyAdopted | ProposalCancelled
    | OfferOpen(offeree: Id) | AlreadyHeld | NoOfferOpen
    | NotWritable | KeyUsed | NotInChannel | NotOnBoard | NotSucceeded | Full | RunChanged | CardChanged

  function CheckAction(a: Action, d: Decision): Option<Conflict> {
    if d.handedUp then Some(WasHandedUp)
    else match a.kind
      case Claim =>
        if d.assignee == a.agent then Some(AlreadyClaimed) else if d.assignee.Some? then Some(ClaimedBy(d.assignee.value)) else None
      case Accept => if d.accepted then Some(AlreadyAccepted) else None
      case Unblock => if d.blockedNote.None? then Some(NotBlocked) else None
      case Restore => if !d.cancelled then Some(NotCancelled) else None
      case Cancel => if d.cancelled then Some(AlreadyCancelled) else None
      case Propose => if d.proposedBy.Some? then Some(AlreadyProposed) else None
      case Adopt =>
        if d.proposedBy.None? then Some(NotProposed) else if d.adopted then Some(AlreadyAdopted)
        else if d.cancelled then Some(ProposalCancelled) else None
      case Offer =>
        if d.cancelled then Some(AlreadyCancelled) else if d.offer.Some? then Some(OfferOpen(d.offer.value.agent))
        else if d.assignee.Some? && d.assignee == a.agent then Some(AlreadyHeld) else None
      case Decline => if d.offer.None? then Some(NoOfferOpen) else None
      case Transfer => if d.offer.Some? && Some(d.offer.value.agent) != a.agent then Some(OfferOpen(d.offer.value.agent)) else None
      case _ => None
  }

  /** Accepting is judged against the run a task has now. */
  function Judged(d: Decision, a: Action): Decision {
    if a.kind.Accept? then d.(accepted := d.acceptedRun == a.acceptedRun) else d
  }

  function Verdict(log: Log, a: Action): Option<Conflict> { CheckAction(a, Judged(DecisionOf(log, a.conversationId, a.taskId), a)) }

  /** The rules of the guard, for an action that names its agent where it must. */
  predicate Allowed(log: Log, a: Action) {
    (NeedsAgent(a.kind) ==> a.agent.Some?) && Verdict(log, a).None?
  }

  const AEEIS: Id := "aeeis"

  const WIP_LIMIT := 3

  /** What a write reads outside the room's log: whether the room takes writes, its active agent
      members, the card, the agent's load before and under the lock, and whether a repeated write
      names the context of the first. */
  datatype View = View(
    writable: bool, members: set<Id>, onBoard: bool, succeeded: bool, runChanged: bool, cardChanged: bool,
    load: nat, loadNow: nat, sameContext: bool)

  predicate IsPresent(agent: Id, v: View) { agent == AEEIS || agent in v.members }

  predicate HasKey(log: Log, key: Key) { exists i :: 0 <= i < |log| && log[i].key == key }

  predicate SameWrite(e: Event, a: Action) {
    && !e.legacy && e.action.Some?
    && e.action.value.(acceptedRun := None) == a.(acceptedRun := None)
  }

  /** The first event under the key is this very write. */
  predicate Repeats(log: Log, key: Key, a: Action) {
    exists i :: 0 <= i < |log| && log[i].key == key && (forall j :: 0 <= j < i ==> log[j].key != key) && SameWrite(log[i], a)
  }

  /** What the surroundings have against a new write before the guard runs. */
  function Unfit(a: Action, v: View): Option<Conflict> {
    if a.agent.Some? && !IsPresent(a.agent.value, v) then Some(NotInChannel)
    else if !v.onBoard then Some(NotOnBoard)
    else if a.kind.Accept? && !v.succeeded then Some(NotSucceeded)
    else if a.agent.Some? && (a.kind.Assign? || a.kind.Transfer? || a.kind.RequestChanges?) && v.load >= WIP_LIMIT then Some(Full)
    else if a.kind.Accept? && v.runChanged then Some(RunChanged)
    else None
  }

  /** What they have against it once the guard let it pass. */
  function Late(a: Action, v: View): Option<Conflict> {
    if v.cardChanged then Some(CardChanged)
    else if a.agent.Some? && (a.kind.Assign? || a.kind.Transfer?) && v.loadNow >= WIP_LIMIT then Some(Full)
    else None
  }

  /** Why a write is refused, in the order of the checks; a repeated write is not. */
  function Refusal(log: Log, key: Key, a: Action, v: View): Option<Conflict> {
    if NeedsAgent(a.kind) && a.agent.None? then Some(ChooseSomeone)
    else if NeedsReason(a.kind) && TextOf(a.reason) == "" then Some(ReasonMissing)
    else if !v.writable then Some(NotWritable)
    else if HasKey(log, key) then (if Repeats(log, key, a) && v.sameContext then None else Some(KeyUsed))
    else if Unfit(a, v).Some? then Unfit(a, v)
    else if Verdict(log, a).Some? then Verdict(log, a)
    else Late(a, v)
  }

  /** A refused or repeated write appends nothing. */
  function Written(log: Log, key: Key, a: Action, line: string, v: View): Log {
    if HasKey(log, key) || Refusal(log, key, a, v).Some? then log else log + [Event(key, Some(a), line, false)]
  }

  class ChannelBoard {
    var events: Log

    constructor ()
      ensures events == []
    {
      events := [];
    }

    method Write(key: Key, a: Action, line: string, v: View) returns (refused: Option<Conflict>)
      modifies this
      ensures events == Written(old(events), key, a, line, v)
      ensures refused == Refusal(old(events), key, a, v)
    {
      if NeedsAgent(a.kind) && a.agent.None? { return Some(ChooseSomeone); }
      if NeedsReason(a.kind) && TextOf(a.reason) == "" { return Some(ReasonMissing); }
      if !v.writable { return Some(NotWritable); }
      for i := 0 to |events|
        invariant events == old(events)
        invariant forall j :: 0 <= j < i ==> events[j].key != key
      {
        if events[i].key == key {
          return if SameWrite(events[i], a) && v.sameContext then None else Some(KeyUsed);
        }
      }
      if Unfit(a, v).Some? { return Unfit(a, v); }
      var decision := DecisionFrom(events, a.conversationId, a.taskId);
      refused := CheckAction(a, Judged(decision, a));
      if refused.None? { refused := Late(a, v); }
      if refused.None? { events := events + [Event(key, Some(a), line, false)]; }
    }
  }

  // ---------------------------------------------------------------- runs

  /** The kinds older events wrote as text, which still reach the fold. */
  predicate TextKind(k: Kind) {
    k.Claim? || k.Assign? || k.Transfer? || k.Refuse? || k.Release? || k.Accept? || k.RequestChanges? || k.Block? || k.Unblock?
    || k.Cancel? || k.Restore?
  }

  /** An action that can be read out of a text: it names no run, and its agent where it needs one. */
  predicate TextForm(a: Action) { TextKind(a.kind) && a.acceptedRun.None? && (NeedsAgent(a.kind) ==> a.agent.Some?) }

  /** Hand-ups are written by Bot removal without the guard, control actions by their own guard. A
      text step is a task update of the room owner that reads as an action: it is posted like any
      other message, without the guard. Everything else in the room carries no action. */
  datatype Step =
    | WriteStep(key: Key, a: Action, line: string, v: View)
    | HandUpStep(key: Key, conversationId: Id, taskId: Id, line: string)
    | ControlStep(key: Key, conversationId: Id, taskId: Id, line: string)
    | TextStep(key: Key, a: Action, line: string)
    | SayStep(key: Key, line: string)

  function Unguarded(log: Log, e: Event): Log { if HasKey(log, e.key) then log else log + [e] }

  function Next(log: Log, s: Step): Log {
    match s
    case WriteStep(key, a, line, v) => if a.kind.HandUp? || a.kind.Control? then log else Written(log, key, a, line, v)
    case HandUpStep(key, c, t, line) => Unguarded(log, Event(key, Some(Action(HandUp, c, t, None, None, None)), line, false))
    case ControlStep(key, c, t, line) => Unguarded(log, Event(key, Some(Action(Control, c, t, None, None, None)), line, false))
    case TextStep(key, a, line) => Unguarded(log, Event(key, if TextForm(a) then Some(a) else None, line, true))
    case SayStep(key, line) => Unguarded(log, Event(key, None, line, false))
  }

  function Run(log: Log, steps: seq<Step>): Log {
    if steps == [] then log else Next(Run(log, steps[..|steps| - 1]), steps[|steps| - 1])
  }

  predicate IsWrite(e: Event) { e.action.Some? && !e.action.value.kind.HandUp? && !e.action.value.kind.Control? }

  /** A write passed the guard on the log before it, or it is a text. */
  predicate SoundAt(log: Log, i: nat)
    requires i < |log|
  {
    IsWrite(log[i]) ==> if log[i].legacy then TextForm(log[i].action.value) else Allowed(log[..i], log[i].action.value)
  }

  /** The guard allows the write, text or not, on the log before it. */
  predicate GuardedAt(log: Log, i: nat)
    requires i < |log|
  {
    IsWrite(log[i]) ==> Allowed(log[..i], log[i].action.value)
  }

  ghost predicate Sound(log: Log) { forall i :: 0 <= i < |log| ==> SoundAt(log, i) }

  ghost predicate Guarded(log: Log) { forall i :: 0 <= i < |log| ==> GuardedAt(log, i) }

  lemma AppendKeepsSound(log: Log, e: Event)
    requires Sound(log)
    requires IsWrite(e) ==> if e.legacy then TextForm(e.action.value) else Allowed(log, e.action.value)
    ensures Sound(log + [e])
  {
    var next := log + [e];
    forall i | 0 <= i < |next| ensures SoundAt(next, i) {
      assert next[..i] == log[..i];
      if i < |log| { assert SoundAt(log, i); } else { assert log[..i] == log; }
    }
  }

  /** What a step appends is sound. */
  lemma StepKeepsSound(log: Log, s: Step)
    requires Sound(log)
    ensures Sound(Next(log, s))
  {
    if Next(log, s) != log { AppendKeepsSound(log, Next(log, s)[|log|]); }
  }

  lemma {:induction false} EveryRunIsSound(steps: seq<Step>)
    ensures Sound(Run([], steps))
  {
    if steps != [] {
      EveryRunIsSound(steps[..|steps| - 1]);
      StepKeepsSound(Run([], steps[..|steps| - 1]), steps[|steps| - 1]);
    }
  }

  /** The step posts a new text action. */
  predicate PostsText(log: Log, s: Step) { s.TextStep? && TextForm(s.a) && !HasKey(log, s.key) }

  /** The guard would have allowed every text action of the run when it was posted. */
  ghost predicate TextsAllowed(steps: seq<Step>) {
    steps != [] ==>
      var before, s := Run([], steps[..|steps| - 1]), steps[|steps| - 1];
      TextsAllowed(steps[..|steps| - 1]) && (PostsText(before, s) ==> Allowed(before, s.a))
  }

  lemma AppendIsGuardedIff(log: Log, e: Event)
    ensures Guarded(log + [e]) <==> Guarded(log) && (IsWrite(e) ==> Allowed(log, e.action.value))
  {
    var next := log + [e];
    assert next[..|log|] == log;
    forall i | 0 <= i < |log| ensures GuardedAt(next, i) <==> GuardedAt(log, i) { assert next[..i] == log[..i]; }
    if Guarded(next) {
      assert GuardedAt(next, |log|);
      forall i | 0 <= i < |log| ensures GuardedAt(log, i) { assert GuardedAt(next, i); }
    }
  }

  lemma StepIsGuardedIff(log: Log, s: Step)
    ensures Guarded(Next(log, s)) <==> Guarded(log) && (PostsText(log, s) ==> Allowed(log, s.a))
  {
    if Next(log, s) != log { AppendIsGuardedIff(log, Next(log, s)[|log|]); }
  }

  /** Every write of a run passed the guard, if and only if the guard would have allowed every
      text action when it was posted. */
  lemma {:induction false} EveryRunIsGuarded(steps: seq<Step>)
    ensures Guarded(Run([], steps)) <==> TextsAllowed(steps)
  {
    if steps != [] {
      var before, s := Run([], steps[..|steps| - 1]), steps[|steps| - 1];
      EveryRunIsGuarded(steps[..|steps| - 1]);
      StepIsGuardedIff(before, s);
    }
  }

  // ---------------------------------------------------------------- what every log promises

  predicate Does(log: Log, i: int, c: Id, t: Id, k: Kind) {
    0 <= i < |log| && ActsOn(log[i], c, t) && log[i].action.value.kind == k
  }

  /** A task's decision after the first n events. */
  function At(log: Log, n: nat, c: Id, t: Id): Decision
    requires n <= |log|
  {
    DecisionOf(log[..n], c, t)
  }

  predicate OfferStep(d: Decision, a: Action, next: Decision) {
    match a.kind
    case Offer => d.offer.None? && next.offer.Some? && a.agent == Some(next.offer.value.agent)
    case Assign => next.offer.None?
    case Transfer => next.offer.None?
    case Decline => next.offer.None? && d.offer.Some?
    case Cancel => next.offer.None?
    case _ => next.offer == d.offer
  }

  predicate ProposalStep(d: Decision, a: Action, next: Decision) {
    match a.kind
    case Propose => d.proposedBy.None? && next.proposedBy.Some?
    case Adopt => d.proposedBy.Some? && !d.adopted && next.adopted && next.proposedBy == d.proposedBy
    case _ => next.proposedBy == d.proposedBy && next.adopted == d.adopted
  }

  /** What one event, text or not, does to the fields no text can break a promise about. */
  ghost predicate Steps(d: Decision, e: Event, next: Decision, c: Id, t: Id) {
    if !ActsOn(e, c, t) then next == d
    else
      var a := e.action.value;
      && OfferStep(d, a, next) && ProposalStep(d, a, next)
      && (d.handedUp || a.kind.HandUp? ==> next.handedUp)
  }

  predicate Passes(d: Decision, a: Action) {
    a.kind.HandUp? || a.kind.Control?
    || ((NeedsAgent(a.kind) ==> a.agent.Some?)
        && CheckAction(a, Judged(d, a)).None?)
  }

  lemma OfferOf(d: Decision, a: Action, line: string)
    requires Passes(d, a) || TextForm(a)
    ensures OfferStep(d, a, Applied(d, a, line))
  {}

  lemma ProposalOf(d: Decision, a: Action, line: string)
    requires Passes(d, a) || TextForm(a)
    ensures ProposalStep(d, a, Applied(d, a, line))
  {}

  lemma HandedUpOf(d: Decision, a: Action, line: string)
    ensures d.handedUp || a.kind.HandUp? ==> Applied(d, a, line).handedUp
  {}

  lemma StepAt(log: Log, n: nat, c: Id, t: Id)
    requires Sound(log) && n < |log|
    ensures Steps(At(log, n, c, t), log[n], At(log, n + 1, c, t), c, t)
  {
    assert log[..n + 1][..n] == log[..n];
    if ActsOn(log[n], c, t) {
      assert SoundAt(log, n);
      var d, a, line := At(log, n, c, t), log[n].action.value, log[n].content;
      OfferOf(d, a, line);
      ProposalOf(d, a, line);
      HandedUpOf(d, a, line);
    }
  }

  predicate ClosesOffer(log: Log, m: int, c: Id, t: Id) {
    Does(log, m, c, t, Assign) || Does(log, m, c, t, Transfer) || Does(log, m, c, t, Decline) || Does(log, m, c, t, Cancel)
  }

  lemma {:induction false} OfferStaysOpen(log: Log, i: nat, n: nat, c: Id, t: Id)
    requires Sound(log) && i < n <= |log| && Does(log, i, c, t, Offer)
    requires forall m :: i < m < n ==> !ClosesOffer(log, m, c, t)
    ensures At(log, n, c, t).offer.Some? && (forall m :: i < m < n ==> !Does(log, m, c, t, Offer))
    ensures log[i].action.value.agent == Some(At(log, n, c, t).offer.value.agent)
  {
    StepAt(log, n - 1, c, t);
    if i < n - 1 {
      OfferStaysOpen(log, i, n - 1, c, t);
      assert !ClosesOffer(log, n - 1, c, t);
    }
  }

  /** Offers never overlap: between two offers of a task lies an action that closed the first. */
  lemma OffersAlternate(log: Log, i: nat, j: nat, c: Id, t: Id)
    requires Sound(log) && i < j < |log| && Does(log, i, c, t, Offer) && Does(log, j, c, t, Offer)
    ensures exists m :: i < m < j && ClosesOffer(log, m, c, t)
  {
    if forall m :: i < m < j ==> !ClosesOffer(log, m, c, t) {
      OfferStaysOpen(log, i, j, c, t);
      StepAt(log, j, c, t);
    }
  }

  lemma {:induction false} OpenOfferHasItsMark(log: Log, n: nat, c: Id, t: Id) returns (i: nat)
    requires Sound(log) && n <= |log| && At(log, n, c, t).offer.Some?
    ensures i < n && Does(log, i, c, t, Offer) && log[i].action.value.agent == Some(At(log, n, c, t).offer.value.agent)
    ensures forall m :: i < m < n ==> !ClosesOffer(log, m, c, t) && !Does(log, m, c, t, Offer)
  {
    StepAt(log, n - 1, c, t);
    if Does(log, n - 1, c, t, Offer) {
      i := n - 1;
    } else {
      i := OpenOfferHasItsMark(log, n - 1, c, t);
    }
  }

  lemma {:induction false} ProposalStays(log: Log, m: nat, n: nat, c: Id, t: Id)
    requires Sound(log) && m <= n <= |log| && At(log, m, c, t).proposedBy.Some?
    ensures At(log, n, c, t).proposedBy == At(log, m, c, t).proposedBy
    ensures At(log, m, c, t).adopted ==> At(log, n, c, t).adopted
  {
    if m < n {
      ProposalStays(log, m, n - 1, c, t);
      StepAt(log, n - 1, c, t);
    }
  }

  /** A task is proposed at most once and adopted at most once, and only after it was proposed. */
  lemma ProposedAndAdoptedOnce(log: Log, i: nat, j: nat, c: Id, t: Id)
    requires Sound(log) && i < |log| && j < |log|
    ensures Does(log, i, c, t, Propose) && Does(log, j, c, t, Propose) ==> i == j
    ensures Does(log, i, c, t, Adopt) && Does(log, j, c, t, Adopt) ==> i == j
    ensures Does(log, i, c, t, Propose) && Does(log, j, c, t, Adopt) ==> i < j
  {
    OnlyFirst(log, i, j, c, t);
    OnlyFirst(log, j, i, c, t);
  }

  lemma OnlyFirst(log: Log, i: nat, j: nat, c: Id, t: Id)
    requires Sound(log) && i < |log| && j < |log|
    ensures i < j && Does(log, i, c, t, Propose) ==> !Does(log, j, c, t, Propose)
    ensures i < j && Does(log, i, c, t, Adopt) ==> !Does(log, j, c, t, Adopt) && !Does(log, j, c, t, Propose)
  {
    if i < j && (Does(log, i, c, t, Propose) || Does(log, i, c, t, Adopt)) {
      StepAt(log, i, c, t);
      ProposalStays(log, i + 1, j, c, t);
      StepAt(log, j, c, t);
    }
  }

  lemma AcceptedRunOf(d: Decision, a: Action, line: string)
    ensures Applied(d, a, line).acceptedRun == if a.kind.Accept? && a.acceptedRun.Some? then a.acceptedRun else d.acceptedRun
  {
    match a.kind
    case Accept =>
    case Claim =>
    case Propose =>
    case Cancel =>
    case _ =>
  }

  lemma {:induction false} AcceptedRunStays(log: Log, i: nat, n: nat, c: Id, t: Id)
    requires i < n <= |log| && Does(log, i, c, t, Accept) && log[i].action.value.acceptedRun.Some?
    requires forall m :: i < m < n ==> !Does(log, m, c, t, Accept)
    ensures At(log, n, c, t).acceptedRun == log[i].action.value.acceptedRun
  {
    assert log[..n][..n - 1] == log[..n - 1];
    if ActsOn(log[n - 1], c, t) { AcceptedRunOf(At(log, n - 1, c, t), log[n - 1].action.value, log[n - 1].content); }
    if i < n - 1 {
      AcceptedRunStays(log, i, n - 1, c, t);
      assert !Does(log, n - 1, c, t, Accept);
    }
  }

  /** A result is not accepted twice: the next acceptance of a task names another run, even when
      changes were requested in between. */
  lemma AcceptancesNameNewRuns(log: Log, i: nat, j: nat, c: Id, t: Id)
    requires Sound(log) && i < j < |log| && Does(log, i, c, t, Accept) && Does(log, j, c, t, Accept)
    requires log[i].action.value.acceptedRun.Some? && forall m :: i < m < j ==> !Does(log, m, c, t, Accept)
    ensures log[j].action.value.acceptedRun != log[i].action.value.acceptedRun
  {
    AcceptedRunStays(log, i, j, c, t);
    assert SoundAt(log, j);
  }

  // ---------------------------------------------------------------- what a guarded log promises

  predicate FlagsStep(d: Decision, a: Action, next: Decision) {
    && (d.handedUp ==> next.handedUp && (a.kind.HandUp? || a.kind.Control?)) && (a.kind.HandUp? ==> next.handedUp)
    && (d.conflicts == [] ==> next.conflicts == [])
    && (a.kind.Transfer? && d.offer.Some? ==> a.agent == Some(d.offer.value.agent)) && (a.kind.Decline? ==> d.offer.Some?)
  }

  predicate HolderStep(d: Decision, a: Action, next: Decision) {
    match a.kind
    case Claim => d.assignee.None? && next.assignee.Some?
    case Assign => next.assignee.Some?
    case Transfer => next.assignee.Some?
    case Refuse => true
    case Release => true
    case _ => next.assignee == d.assignee
  }

  lemma FlagsOf(d: Decision, a: Action, line: string)
    requires Passes(d, a)
    ensures FlagsStep(d, a, Applied(d, a, line))
  {}

  lemma HolderOf(d: Decision, a: Action, line: string)
    requires Passes(d, a)
    ensures HolderStep(d, a, Applied(d, a, line))
  {}

  lemma GuardedStepAt(log: Log, n: nat, c: Id, t: Id)
    requires Guarded(log) && n < |log|
    ensures if ActsOn(log[n], c, t)
            then FlagsStep(At(log, n, c, t), log[n].action.value, At(log, n + 1, c, t))
              && HolderStep(At(log, n, c, t), log[n].action.value, At(log, n + 1, c, t))
            else At(log, n + 1, c, t) == At(log, n, c, t)
  {
    assert log[..n + 1][..n] == log[..n];
    if ActsOn(log[n], c, t) {
      assert GuardedAt(log, n);
      FlagsOf(At(log, n, c, t), log[n].action.value, log[n].content);
      HolderOf(At(log, n, c, t), log[n].action.value, log[n].content);
    }
  }

  /** Two claims never compete: no decision of a guarded log has a conflict. */
  lemma {:induction false} NoClaimConflicts(log: Log, n: nat, c: Id, t: Id)
    requires Guarded(log) && n <= |log|
    ensures At(log, n, c, t).conflicts == []
  {
    if n > 0 {
      NoClaimConflicts(log, n - 1, c, t);
      GuardedStepAt(log, n - 1, c, t);
    }
  }

  lemma {:induction false} StaysHandedUp(log: Log, m: nat, n: nat, c: Id, t: Id)
    requires Guarded(log) && m <= n <= |log| && At(log, m, c, t).handedUp
    ensures At(log, n, c, t).handedUp
  {
    if m < n {
      StaysHandedUp(log, m, n - 1, c, t);
      GuardedStepAt(log, n - 1, c, t);
    }
  }

  /** After a hand-up no write ever follows for that task. */
  lemma NothingAfterHandUp(log: Log, i: nat, j: nat, c: Id, t: Id)
    requires Guarded(log) && i < j < |log| && Does(log, i, c, t, HandUp) && ActsOn(log[j], c, t)
    ensures !IsWrite(log[j])
  {
    GuardedStepAt(log, i, c, t);
    StaysHandedUp(log, i + 1, j, c, t);
    GuardedStepAt(log, j, c, t);
  }

  /** While an offer is open only its recipient can receive a transfer, and only then can it be declined. */
  lemma OpenOfferBinds(log: Log, j: nat, c: Id, t: Id)
    requires Guarded(log) && j < |log|
    ensures Does(log, j, c, t, Transfer) && At(log, j, c, t).offer.Some? ==>
      log[j].action.value.agent == Some(At(log, j, c, t).offer.value.agent)
    ensures Does(log, j, c, t, Decline) ==> At(log, j, c, t).offer.Some?
  {
    GuardedStepAt(log, j, c, t);
  }

  predicate Frees(log: Log, m: int, c: Id, t: Id) { Does(log, m, c, t, Refuse) || Does(log, m, c, t, Release) }

  lemma {:induction false} HolderStays(log: Log, i: nat, n: nat, c: Id, t: Id)
    requires Guarded(log) && i < n <= |log| && Does(log, i, c, t, Claim)
    requires forall m :: i < m < n ==> !Frees(log, m, c, t)
    ensures At(log, n, c, t).assignee.Some?
  {
    GuardedStepAt(log, n - 1, c, t);
    if i < n - 1 {
      HolderStays(log, i, n - 1, c, t);
      assert !Frees(log, n - 1, c, t);
    }
  }

  /** Between two claims of a task someone refused or released it. */
  lemma ClaimsAlternate(log: Log, i: nat, j: nat, c: Id, t: Id)
    requires Guarded(log) && i < j < |log| && Does(log, i, c, t, Claim) && Does(log, j, c, t, Claim)
    ensures exists m :: i < m < j && Frees(log, m, c, t)
  {
    if forall m :: i < m < j ==> !Frees(log, m, c, t) {
      HolderStays(log, i, j, c, t);
      GuardedStepAt(log, j, c, t);
    }
  }

  // ---------------------------------------------------------------- what texts can break

  /** In any log a card is free of claim conflicts exactly when every claim met a free card or
      one already held by the claimer. */
  lemma {:induction false} NoConflictsIff(log: Log, n: nat, c: Id, t: Id)
    requires n <= |log|
    ensures At(log, n, c, t).conflicts == [] <==>
      forall m :: 0 <= m < n && Does(log, m, c, t, Claim) && log[m].action.value.agent.Some? ==>
        At(log, m, c, t).assignee in {None, log[m].action.value.agent}
  {
    if n > 0 {
      NoConflictsIff(log, n - 1, c, t);
      assert log[..n][..n - 1] == log[..n - 1];
      if ActsOn(log[n - 1], c, t) { ConflictsOf(At(log, n - 1, c, t), log[n - 1].action.value, log[n - 1].content); }
    }
  }

  lemma ConflictsOf(d: Decision, a: Action, line: string)
    ensures Applied(d, a, line).conflicts ==
      if a.kind.Claim? && a.agent.Some? && d.assignee !in {None, a.agent} then d.conflicts + [a.agent.value] else d.conflicts
  {
    match a.kind
    case Claim =>
    case Propose =>
    case Cancel =>
    case _ =>
  }

  function TextOn(kind: Kind, c: Id, t: Id, agent: Id): Action { Action(kind, c, t, Some(agent), None, None) }

  /** A text is folded whatever the guard would have said: a claim of a held card is a conflict, a
      transfer goes past an open offer, and a handed-up card is written to. */
  lemma TextsPassTheGuard(log: Log, key: Key, c: Id, t: Id, agent: Id, line: string)
    requires !HasKey(log, key)
    ensures var d, next := DecisionOf(log, c, t), DecisionOf(Next(log, TextStep(key, TextOn(Claim, c, t, agent), line)), c, t);
      d.assignee.Some? && d.assignee.value != agent ==> next.conflicts == d.conflicts + [agent]
    ensures var d, next := DecisionOf(log, c, t), DecisionOf(Next(log, TextStep(key, TextOn(Transfer, c, t, agent), line)), c, t);
      d.offer.Some? && d.offer.value.agent != agent ==> next.assignee == Some(agent) && next.offer.None?
    ensures var d, next := DecisionOf(log, c, t), Next(log, TextStep(key, TextOn(Transfer, c, t, agent), line));
      d.handedUp ==> |next| == |log| + 1 && IsWrite(next[|log|]) && DecisionOf(next, c, t).assignee == Some(agent)
  {
    var claim, transfer := Event(key, Some(TextOn(Claim, c, t, agent)), line, true), Event(key, Some(TextOn(Transfer, c, t, agent)), line, true);
    assert (log + [claim])[..|log|] == log && (log + [transfer])[..|log|] == log;
  }

  /** Two texts are enough for a claim conflict, and one text follows a hand-up. */
  lemma TwoTextsConflict(k: string, l: string, c: Id, t: Id, a: Id, b: Id, line: string)
    requires k != l && a != b
    ensures var first, second := TextStep(ClientKey(k), TextOn(Claim, c, t, a), line), TextStep(ClientKey(l), TextOn(Claim, c, t, b), line);
      && DecisionOf(Run([], [first, second]), c, t).conflicts == [b] && !TextsAllowed([first, second])
    ensures var up, text := HandUpStep(ClientKey(k), c, t, line), TextStep(ClientKey(l), TextOn(Claim, c, t, a), line);
      var log := Run([], [up, text]);
      |log| == 2 && Does(log, 0, c, t, HandUp) && ActsOn(log[1], c, t) && IsWrite(log[1])
  {
    var first, second := TextStep(ClientKey(k), TextOn(Claim, c, t, a), line), TextStep(ClientKey(l), TextOn(Claim, c, t, b), line);
    var up, text := HandUpStep(ClientKey(k), c, t, line), TextStep(ClientKey(l), TextOn(Claim, c, t, a), line);
    RunOfTwo(first, second);
    RunOfTwo(up, text);
    var one := Next([], first);
    assert one == [Event(ClientKey(k), Some(first.a), line, true)] && one[..0] == [];
    assert DecisionOf(one, c, t).assignee == Some(a);
    TextsPassTheGuard(one, ClientKey(l), c, t, b, line);
    assert !Allowed(one, second.a);
    assert [first, second][..1] == [first] && Run([], [first]) == one;
    assert !TextsAllowed([first, second]);
  }

  lemma RunOfTwo(s: Step, next: Step)
    ensures Run([], [s, next]) == Next(Next([], s), next)
  {
    assert [s, next][..1] == [s] && [s][..0] == [];
    assert Run([], [s]) == Next(Run([], [s][..0]), s);
  }
}
